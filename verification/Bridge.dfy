/** The API's one Redis subscription, and what it says about its own gaps:
    src/pipeline/bridge.py.

    What Redis and the clocks do is a script the bridge is run against. The bridge itself never
    stops, so a script that ends stands for the moment it is looked at, or cancelled: what holds
    for every script holds at every point of every run. */
module Bridge {
  import opened Basics
  import opened Names

  /** What waiting for a message gives; anything else the client may return counts as silence. */
  datatype Received =
    | Silence
    | Subscribed(channel: string)
    | Message(channel: string, data: string)
    | Pong(data: string)
    | Failure

  /** One turn of the pump: the clock read at its top, when its message has been handled, and at
      its heartbeat check; and the wall clock. */
  datatype Turn = Turn(now: int, pingFails: bool, received: Received, handled: int, found: string, checked: int)

  /** One attempt: what arrives before its deadline, and what follows if it subscribes. */
  datatype Attempt = Attempt(acks: seq<Received>, subscribedAt: string, started: int, turns: seq<Turn>,
                             failedAt: string)

  datatype Notice = Interrupted(detectedAt: string) | Resubscribed(since: string, at: string)

  /** What crosses one subscription's connection: a ping sent, or its answer, and in which turn. */
  datatype Beat = Ping(payload: string, turn: nat) | Answer(payload: string, turn: nat)

  // --- notices --------------------------------------------------------------------------------

  /** Recoveries and interruptions alternate, a recovery first, and each recovery carries the
      time of the interruption it ends; the first, the time the bridge started. */
  ghost predicate NoticeOk(notices: seq<Notice>, k: int, start: string)
    requires 0 <= k < |notices|
  {
    if k % 2 == 1 then notices[k].Interrupted?
    else if k == 0 then notices[k].Resubscribed? && notices[k].since == start
    else notices[k].Resubscribed? && notices[k - 1] == Interrupted(notices[k].since)
  }

  ghost predicate NoticesOk(notices: seq<Notice>, subscribed: bool, start: string) {
    && (forall k :: 0 <= k < |notices| ==> NoticeOk(notices, k, start))
    && (subscribed <==> |notices| % 2 == 1)
  }

  /** Subscribed exactly when the last thing said was so. */
  lemma StateIsLastNotice(notices: seq<Notice>, subscribed: bool, start: string)
    requires NoticesOk(notices, subscribed, start)
    ensures subscribed <==> notices != [] && notices[|notices| - 1].Resubscribed?
  {
    assert notices != [] ==> NoticeOk(notices, |notices| - 1, start);
  }

  /** Since when the bridge has known it was not listening. */
  ghost predicate DownSince(notices: seq<Notice>, start: string, at: string) {
    if notices == [] then at == start else notices[|notices| - 1] == Interrupted(at)
  }

  lemma OneMoreNotice(notices: seq<Notice>, subscribed: bool, start: string, n: Notice)
    requires NoticesOk(notices, subscribed, start) && n.Resubscribed? == !subscribed
    requires n.Resubscribed? ==> DownSince(notices, start, n.since)
    ensures NoticesOk(notices + [n], !subscribed, start)
  {
    var all := notices + [n];
    forall k | 0 <= k < |all|
      ensures NoticeOk(all, k, start)
    {
      assert k < |notices| ==> NoticeOk(notices, k, start);
    }
  }

  /** The notices of a stretch of turns: each renewal found is an interruption and its end. */
  function Renewals(turns: seq<Turn>): seq<Notice> {
    if turns == [] then [] else
      var n := |turns| - 1;
      Renewals(turns[..n]) +
      if turns[n].received.Subscribed? then [Interrupted(turns[n].found), Resubscribed(turns[n].found, turns[n].found)]
      else []
  }

  lemma RenewalsGrow(turns: seq<Turn>)
    requires turns != []
    ensures Renewals(turns[..|turns| - 1]) <= Renewals(turns)
  {
  }

  /** What each turn adds: a subscription confirmed again is reported, as one interruption and its
      end, after everything reported before it, and nothing else is. */
  lemma {:induction false} RenewalsAt(turns: seq<Turn>, i: nat)
    requires i < |turns|
    ensures var before, found := Renewals(turns[..i]), turns[i].found;
            && Renewals(turns[..i + 1]) <= Renewals(turns)
            && Renewals(turns[..i + 1]) ==
               if turns[i].received.Subscribed? then before + [Interrupted(found), Resubscribed(found, found)]
               else before
    decreases |turns|
  {
    var n := |turns| - 1;
    if i < n {
      assert turns[..n][..i] == turns[..i] && turns[..n][..i + 1] == turns[..i + 1];
      RenewalsAt(turns[..n], i);
      RenewalsGrow(turns);
    } else {
      assert turns[..i + 1] == turns;
    }
  }

  lemma {:induction false} RenewalsKeep(notices: seq<Notice>, start: string, turns: seq<Turn>)
    requires NoticesOk(notices, true, start)
    ensures NoticesOk(notices + Renewals(turns), true, start)
  {
    if turns == [] {
      assert notices + [] == notices;
    } else {
      var n := |turns| - 1;
      RenewalsKeep(notices, start, turns[..n]);
      var so := notices + Renewals(turns[..n]);
      if turns[n].received.Subscribed? {
        var found := turns[n].found;
        OneMoreNotice(so, true, start, Interrupted(found));
        OneMoreNotice(so + [Interrupted(found)], false, start, Resubscribed(found, found));
        assert notices + Renewals(turns) == so + [Interrupted(found)] + [Resubscribed(found, found)];
      } else {
        assert notices + Renewals(turns) == so;
      }
    }
  }

  function Joined(parts: seq<seq<Notice>>): seq<Notice> {
    if parts == [] then [] else Joined(parts[..|parts| - 1]) + parts[|parts| - 1]
  }

  // --- acknowledgement ----------------------------------------------------------------------------

  /** Every channel confirmed by its own name among the first `n` replies, none of them a failure. */
  ghost predicate ConfirmedBy(channels: set<string>, acks: seq<Received>, n: nat) {
    && n <= |acks| && (forall i :: 0 <= i < n ==> acks[i] != Failure)
    && forall c :: c in channels ==> Subscribed(c) in acks[..n]
  }

  ghost predicate Confirmed(channels: set<string>, a: Attempt) {
    exists n: nat :: ConfirmedBy(channels, a.acks, n)
  }

  /** An attempt says something exactly if every channel was confirmed in it, its recovery first. */
  ghost predicate SaidBy(channels: set<string>, a: Attempt, part: seq<Notice>) {
    if Confirmed(channels, a) then part != [] && part[0].Resubscribed? && part[0].at == a.subscribedAt else part == []
  }

  ghost predicate AllSaid(channels: set<string>, attempts: seq<Attempt>, parts: seq<seq<Notice>>) {
    |parts| <= |attempts| && forall i :: 0 <= i < |parts| ==> SaidBy(channels, attempts[i], parts[i])
  }

  lemma OneMorePart(channels: set<string>, attempts: seq<Attempt>, parts: seq<seq<Notice>>, part: seq<Notice>)
    requires AllSaid(channels, attempts, parts) && |parts| < |attempts| && SaidBy(channels, attempts[|parts|], part)
    ensures AllSaid(channels, attempts, parts + [part])
  {
    forall i | 0 <= i < |parts| + 1
      ensures SaidBy(channels, attempts[i], (parts + [part])[i])
    {
      if i < |parts| {
        assert SaidBy(channels, attempts[i], parts[i]);
        assert (parts + [part])[i] == parts[i];
      }
    }
  }

  lemma JoinedOneMore(parts: seq<seq<Notice>>, part: seq<Notice>)
    ensures Joined(parts + [part]) == Joined(parts) + part
  {
    assert (parts + [part])[..|parts|] == parts;
  }

  // --- the heartbeat ----------------------------------------------------------------------------

  function Payload(n: nat): string {
    "heartbeat-" + Decimal(n)
  }

  /** No ping's answer can pass for another's, in this subscription or any later one. */
  lemma PayloadsDistinct(m: nat, n: nat)
    requires Payload(m) == Payload(n)
    ensures m == n
  {
    DecimalReadsBack(m);
    DecimalReadsBack(n);
    assert Decimal(m) == Payload(m)[|"heartbeat-"|..] && Decimal(n) == Payload(n)[|"heartbeat-"|..];
  }

  /** One subscription's heartbeat: when it starts, how often, how long, and its first number. */
  datatype Pulse = Pulse(started: int, interval: int, deadline: int, first: nat)

  /** When the next ping is due, and from which turn it may be sent: an interval after the start,
      or after the last answer was handled. */
  function Due(beats: seq<Beat>, turns: seq<Turn>, p: Pulse): int
    requires beats != [] ==> beats[|beats| - 1].turn < |turns|
  {
    (if beats == [] then p.started else turns[beats[|beats| - 1].turn].handled) + p.interval
  }

  function After(beats: seq<Beat>): nat {
    if beats == [] then 0 else beats[|beats| - 1].turn + 1
  }

  ghost predicate NotDue(turns: seq<Turn>, from: nat, upTo: nat, due: int) {
    from <= upTo <= |turns| && forall m :: from <= m < upTo ==> turns[m].now < due
  }

  /** A ping's one deadline, counted from when it was sent, was still ahead at every check, and
      its answer had not come. */
  ghost predicate Waits(turns: seq<Turn>, ping: Beat, upTo: nat, p: Pulse) {
    && ping.turn < |turns| && upTo <= |turns|
    && forall m :: ping.turn <= m < upTo ==>
         turns[m].checked < turns[ping.turn].now + p.deadline && turns[m].received != Pong(ping.payload)
  }

  /** Pings, numbered from the first, and their own answers alternate. A ping is sent in the first
      turn that finds it due, and answered by the first pong that carries its payload, every
      check in between finding its deadline ahead. */
  ghost predicate BeatOk(before: seq<Beat>, b: Beat, turns: seq<Turn>, p: Pulse) {
    var n := |before|;
    && b.turn < |turns| && (n > 0 ==> before[n - 1].turn < |turns|)
    && if n % 2 == 0 then
         && b == Ping(Payload(p.first + n / 2), b.turn)
         && turns[b.turn].now >= Due(before, turns, p) && NotDue(turns, After(before), b.turn, Due(before, turns, p))
       else
         && b == Answer(before[n - 1].payload, b.turn) && before[n - 1].turn <= b.turn
         && turns[b.turn].received == Pong(b.payload) && Waits(turns, before[n - 1], b.turn, p)
  }

  ghost predicate BeatAt(beats: seq<Beat>, k: int, turns: seq<Turn>, p: Pulse)
    requires 0 <= k < |beats|
  {
    BeatOk(beats[..k], beats[k], turns, p)
  }

  ghost predicate HeartbeatOk(beats: seq<Beat>, turns: seq<Turn>, p: Pulse) {
    forall k :: 0 <= k < |beats| ==> BeatAt(beats, k, turns, p)
  }

  lemma OneMoreBeat(beats: seq<Beat>, turns: seq<Turn>, p: Pulse, b: Beat)
    requires HeartbeatOk(beats, turns, p) && BeatOk(beats, b, turns, p)
    ensures HeartbeatOk(beats + [b], turns, p)
  {
    var all := beats + [b];
    forall k | 0 <= k < |all|
      ensures BeatAt(all, k, turns, p)
    {
      assert all[..k] == if k < |beats| then beats[..k] else beats;
      assert k < |beats| ==> BeatAt(beats, k, turns, p);
    }
  }

  function PulseOf(a: Attempt, interval: int, deadline: int, first: nat): Pulse {
    Pulse(a.started, interval, deadline, first)
  }

  // --- the pings of a whole run ------------------------------------------------------------------

  /** No two pings, of any subscriptions, have the same payload. */
  ghost predicate NoPingTwice(hearts: seq<seq<Beat>>) {
    forall i, j, k, l ::
      (&& 0 <= i < |hearts| && 0 <= k < |hearts[i]| && hearts[i][k].Ping?
       && 0 <= j < |hearts| && 0 <= l < |hearts[j]| && hearts[j][l].Ping?
       && hearts[i][k].payload == hearts[j][l].payload)
      ==> i == j && k == l
  }

  /** A subscription's pings are numbered one after another from its first. */
  ghost predicate NumberedFrom(beats: seq<Beat>, first: nat) {
    forall k :: 0 <= k < |beats| && beats[k].Ping? ==> k % 2 == 0 && beats[k].payload == Payload(first + k / 2)
  }

  /** And each subscription's numbers lie above those of the ones before. */
  ghost predicate Numbered(hearts: seq<seq<Beat>>, firsts: seq<nat>, pings: nat) {
    && |firsts| == |hearts|
    && (forall i :: 0 <= i < |hearts| ==>
        NumberedFrom(hearts[i], firsts[i]) && firsts[i] + (|hearts[i]| + 1) / 2 <= pings + 1)
    && (forall i, j :: 0 <= i < j < |hearts| ==> firsts[i] + (|hearts[i]| + 1) / 2 <= firsts[j])
  }

  lemma HeartNumbered(beats: seq<Beat>, turns: seq<Turn>, p: Pulse)
    requires HeartbeatOk(beats, turns, p)
    ensures NumberedFrom(beats, p.first)
  {
    forall k | 0 <= k < |beats| && beats[k].Ping?
      ensures k % 2 == 0 && beats[k].payload == Payload(p.first + k / 2)
    {
      assert BeatAt(beats, k, turns, p);
    }
  }

  lemma OneMoreHeart(hearts: seq<seq<Beat>>, firsts: seq<nat>, first: nat, beats: seq<Beat>, pings: nat,
                     turns: seq<Turn>, p: Pulse)
    requires first > 0 && Numbered(hearts, firsts, first - 1)
    requires HeartbeatOk(beats, turns, p) && p.first == first && first + (|beats| + 1) / 2 <= pings + 1
    ensures Numbered(hearts + [beats], firsts + [first], pings)
  {
    HeartNumbered(beats, turns, p);
  }

  lemma NumberedApart(hearts: seq<seq<Beat>>, firsts: seq<nat>, pings: nat, i: nat, j: nat, k: nat, l: nat)
    requires Numbered(hearts, firsts, pings) && i <= j < |hearts|
    requires k < |hearts[i]| && hearts[i][k].Ping? && l < |hearts[j]| && hearts[j][l].Ping?
    requires hearts[i][k].payload == hearts[j][l].payload
    ensures i == j && k == l
  {
    assert NumberedFrom(hearts[i], firsts[i]) && NumberedFrom(hearts[j], firsts[j]);
    PayloadsDistinct(firsts[i] + k / 2, firsts[j] + l / 2);
  }

  lemma NumberedOnce(hearts: seq<seq<Beat>>, firsts: seq<nat>, pings: nat)
    requires Numbered(hearts, firsts, pings)
    ensures NoPingTwice(hearts)
  {
    forall i, j, k, l |
      && 0 <= i < |hearts| && 0 <= k < |hearts[i]| && hearts[i][k].Ping?
      && 0 <= j < |hearts| && 0 <= l < |hearts[j]| && hearts[j][l].Ping?
      && hearts[i][k].payload == hearts[j][l].payload
      ensures i == j && k == l
    {
      if i <= j {
        NumberedApart(hearts, firsts, pings, i, j, k, l);
      } else {
        NumberedApart(hearts, firsts, pings, j, i, l, k);
      }
    }
  }

  /** What the pump remembers: the ping outstanding with its deadline, and when the next is due. */
  datatype Heart = Heart(outstanding: Option<(string, int)>, nextPing: int, beats: seq<Beat>)

  /** It is what crossed the connection in the first `n` turns, and `k` checks were passed. */
  ghost predicate HeartOk(h: Heart, turns: seq<Turn>, n: nat, k: nat, p: Pulse) {
    && HeartbeatOk(h.beats, turns, p) && k <= n <= |turns| && After(h.beats) <= n
    && (h.beats != [] ==> h.beats[|h.beats| - 1].turn < |turns|)
    && match h.outstanding
       case None =>
         |h.beats| % 2 == 0 && h.nextPing == Due(h.beats, turns, p) && NotDue(turns, After(h.beats), n, h.nextPing)
       case Some((payload, at)) =>
         && |h.beats| % 2 == 1
         && var ping := h.beats[|h.beats| - 1];
            payload == ping.payload && at == turns[ping.turn].now + p.deadline && Waits(turns, ping, k, p)
  }

  function Pinged(h: Heart, payload: string, turns: seq<Turn>, k: nat, p: Pulse): Heart
    requires k < |turns|
  {
    h.(outstanding := Some((payload, turns[k].now + p.deadline)), beats := h.beats + [Ping(payload, k)])
  }

  function Answered(h: Heart, turns: seq<Turn>, k: nat, p: Pulse): Heart
    requires k < |turns| && h.outstanding.Some?
  {
    Heart(None, turns[k].handled + p.interval, h.beats + [Answer(h.outstanding.value.0, k)])
  }

  lemma PingKeeps(h: Heart, turns: seq<Turn>, k: nat, p: Pulse)
    requires HeartOk(h, turns, k, k, p) && k < |turns| && h.outstanding.None? && turns[k].now >= h.nextPing
    ensures HeartOk(Pinged(h, Payload(p.first + |h.beats| / 2), turns, k, p), turns, k + 1, k, p)
  {
    OneMoreBeat(h.beats, turns, p, Ping(Payload(p.first + |h.beats| / 2), k));
  }

  lemma AnswerKeeps(h: Heart, turns: seq<Turn>, k: nat, p: Pulse)
    requires HeartOk(h, turns, k + 1, k, p) && k < |turns| && h.outstanding.Some?
    requires turns[k].received == Pong(h.outstanding.value.0)
    ensures HeartOk(Answered(h, turns, k, p), turns, k + 1, k, p)
  {
    OneMoreBeat(h.beats, turns, p, Answer(h.outstanding.value.0, k));
  }

  /** At the top of turn `k`, `pings` sent so far. */
  ghost predicate Beating(h: Heart, turns: seq<Turn>, k: nat, p: Pulse, pings: nat) {
    HeartOk(h, turns, k, k, p) && pings + 1 == p.first + (|h.beats| + 1) / 2
  }

  /** In turn `k`, its message received and the heartbeat not yet checked. */
  ghost predicate Caught(h: Heart, turns: seq<Turn>, k: nat, p: Pulse, pings: nat) {
    && k < |turns| && HeartOk(h, turns, k + 1, k, p) && pings + 1 == p.first + (|h.beats| + 1) / 2
    && (h.outstanding.Some? ==> turns[k].received != Pong(h.outstanding.value.0))
  }

  /** The heartbeat is given up: the ping last sent, unanswered, reached its deadline only at
      the last check. */
  ghost predicate Missed(beats: seq<Beat>, turns: seq<Turn>, k: nat, p: Pulse) {
    && |beats| % 2 == 1 && 0 < k <= |turns|
    && var ping := beats[|beats| - 1];
       && Waits(turns, ping, k - 1, p) && turns[k - 1].received != Pong(ping.payload)
       && turns[k - 1].checked >= turns[ping.turn].now + p.deadline
  }

  /** No ping is due and unsent, and none sent is past its deadline. */
  ghost predicate UpToDate(beats: seq<Beat>, turns: seq<Turn>, k: nat, p: Pulse) {
    && (beats != [] ==> beats[|beats| - 1].turn < |turns|)
    && if |beats| % 2 == 1 then Waits(turns, beats[|beats| - 1], k, p)
       else NotDue(turns, After(beats), k, Due(beats, turns, p))
  }

  /** How a pump stands after `k` turns: failed in the next, or by its heartbeat, or not at all. */
  ghost predicate Ended(beats: seq<Beat>, turns: seq<Turn>, k: nat, failed: bool, p: Pulse, pings: nat) {
    && HeartbeatOk(beats, turns, p) && pings + 1 >= p.first + (|beats| + 1) / 2
    && k <= |turns|
    && if failed
       then Missed(beats, turns, k, p) || (k < |turns| && (turns[k].pingFails || turns[k].received == Failure))
       else k == |turns| && UpToDate(beats, turns, k, p)
  }

  lemma CheckKeeps(h: Heart, turns: seq<Turn>, k: nat, p: Pulse, pings: nat)
    requires Caught(h, turns, k, p, pings)
    ensures if h.outstanding.Some? && turns[k].checked >= h.outstanding.value.1
            then Ended(h.beats, turns, k + 1, true, p, pings) else Beating(h, turns, k + 1, p, pings)
  {
  }

  lemma StillBeating(h: Heart, turns: seq<Turn>, p: Pulse, pings: nat)
    requires Beating(h, turns, |turns|, p, pings)
    ensures Ended(h.beats, turns, |turns|, false, p, pings)
  {
  }

  // --- relaying ---------------------------------------------------------------------------------

  type Parsers = map<string, string -> Option<string>>

  /** What a message becomes, if its channel is ours and its parser accepts it. */
  function Relayable(channels: Parsers, m: Received): Option<string> {
    if m.Message? && m.channel in channels then channels[m.channel](m.data) else None
  }

  /** The texts relayed from a stretch of turns, in order. */
  function Relayed(channels: Parsers, turns: seq<Turn>): seq<string> {
    if turns == [] then [] else
      var n := |turns| - 1;
      var text := Relayable(channels, turns[n].received);
      Relayed(channels, turns[..n]) + if text.Some? then [text.value] else []
  }

  /** What each turn adds: a message that its channel's parser accepts is relayed as the parser
      made it, after everything relayed before it, and nothing else is relayed at all. */
  lemma {:induction false} RelayedAt(channels: Parsers, turns: seq<Turn>, i: nat)
    requires i < |turns|
    ensures var before, m := Relayed(channels, turns[..i]), turns[i].received;
            && Relayed(channels, turns[..i + 1]) <= Relayed(channels, turns)
            && Relayed(channels, turns[..i + 1]) ==
               if m.Message? && m.channel in channels && channels[m.channel](m.data).Some?
               then before + [channels[m.channel](m.data).value] else before
    decreases |turns|
  {
    var n := |turns| - 1;
    if i < n {
      assert turns[..n][..i] == turns[..i] && turns[..n][..i + 1] == turns[..i + 1];
      RelayedAt(channels, turns[..n], i);
    } else {
      assert turns[..i + 1] == turns;
    }
  }

  function Messages(turns: seq<Turn>): nat {
    if turns == [] then 0 else Messages(turns[..|turns| - 1]) + if turns[|turns| - 1].received.Message? then 1 else 0
  }

  /** What the bridge has handed on: its notices, the texts relayed, the number dropped. */
  datatype Output = Output(notices: seq<Notice>, relayed: seq<string>, dropped: nat)

  /** A stretch of turns adds its renewals and its texts, in order, and accounts for every message. */
  ghost predicate Ran(channels: Parsers, turns: seq<Turn>, before: Output, after: Output) {
    && after.notices == before.notices + Renewals(turns)
    && after.relayed == before.relayed + Relayed(channels, turns)
    && after.dropped + |after.relayed| == before.dropped + |before.relayed| + Messages(turns)
  }

  /** What a stretch of turns relays and drops, whatever else is said around it. */
  ghost predicate Passed(channels: Parsers, turns: seq<Turn>, before: Output, after: Output) {
    && after.relayed == before.relayed + Relayed(channels, turns)
    && after.dropped + |after.relayed| == before.dropped + |before.relayed| + Messages(turns)
  }

  /** How many turns each attempt so far has completed. */
  ghost predicate Turned(attempts: seq<Attempt>, turned: seq<nat>) {
    |turned| <= |attempts| && forall i :: 0 <= i < |turned| ==> turned[i] <= |attempts[i].turns|
  }

  /** The texts relayed, and the messages received, in all of them. */
  ghost function RelayedIn(channels: Parsers, attempts: seq<Attempt>, turned: seq<nat>): seq<string>
    requires Turned(attempts, turned)
  {
    if turned == [] then [] else
      var n := |turned| - 1;
      RelayedIn(channels, attempts, turned[..n]) + Relayed(channels, attempts[n].turns[..turned[n]])
  }

  ghost function MessagesIn(attempts: seq<Attempt>, turned: seq<nat>): nat
    requires Turned(attempts, turned)
  {
    if turned == [] then 0 else
      var n := |turned| - 1;
      MessagesIn(attempts, turned[..n]) + Messages(attempts[n].turns[..turned[n]])
  }

  ghost predicate Accounted(channels: Parsers, attempts: seq<Attempt>, turned: seq<nat>, before: Output,
                            after: Output) {
    && Turned(attempts, turned)
    && after.relayed == before.relayed + RelayedIn(channels, attempts, turned)
    && after.dropped + |after.relayed| == before.dropped + |before.relayed| + MessagesIn(attempts, turned)
  }

  lemma OneMoreAttempt(channels: Parsers, attempts: seq<Attempt>, turned: seq<nat>, k: nat, before: Output, mid: Output,
                       after: Output)
    requires |turned| < |attempts| && k <= |attempts[|turned|].turns|
    requires Accounted(channels, attempts, turned, before, mid)
    requires Passed(channels, attempts[|turned|].turns[..k], mid, after)
    ensures Accounted(channels, attempts, turned + [k], before, after)
  {
    assert (turned + [k])[..|turned|] == turned;
  }

  ghost predicate RanTo(channels: Parsers, turns: seq<Turn>, k: int, before: Output, after: Output) {
    0 <= k <= |turns| && Ran(channels, turns[..k], before, after)
  }

  lemma RanOneMore(channels: Parsers, turns: seq<Turn>, k: nat, before: Output, mid: Output, after: Output)
    requires k < |turns| && RanTo(channels, turns, k, before, mid) && Ran(channels, [turns[k]], mid, after)
    ensures RanTo(channels, turns, k + 1, before, after)
  {
    assert turns[..k + 1][..k] == turns[..k] && [turns[k]][..0] == [];
    assert Renewals([]) == [] && Relayed(channels, []) == [] && Messages([]) == 0;
  }

  class Bridge {
    const channels: Parsers
    const interval: int
    const deadline: int
    var subscribed: bool
    var dropped: nat
    var pings: nat
    // What was handed to `notice` and `relay`, in order.
    var notices: seq<Notice>
    var relayed: seq<string>

    ghost function Said(): Output
      reads this
    {
      Output(notices, relayed, dropped)
    }

    constructor (channels: Parsers, interval: int, deadline: int)
      ensures !subscribed && notices == [] && relayed == [] && dropped == 0
      ensures this.channels == channels && this.interval == interval && this.deadline == deadline
    {
      this.channels, this.interval, this.deadline := channels, interval, deadline;
      subscribed, dropped, pings, notices, relayed := false, 0, 0, [], [];
    }

    /** Waits until every channel is confirmed, within what arrives before the deadline. */
    method Acknowledged(acks: seq<Received>) returns (ok: bool)
      ensures ok <==> exists n: nat :: ConfirmedBy(channels.Keys, acks, n)
    {
      var waiting, n := channels.Keys, 0;
      while waiting != {}
        invariant n <= |acks| && forall i :: 0 <= i < n ==> acks[i] != Failure
        invariant forall c :: c in channels.Keys ==> (c in waiting <==> Subscribed(c) !in acks[..n])
        invariant waiting <= channels.Keys
        decreases |acks| - n
      {
        if n == |acks| || acks[n] == Failure {
          var c :| c in waiting;
          forall m: nat | ConfirmedBy(channels.Keys, acks, m)
            ensures m <= n
          {
          }
          assert forall m: nat :: ConfirmedBy(channels.Keys, acks, m) ==> acks[..m] <= acks[..n];
          return false;
        }
        if acks[n].Subscribed? {
          waiting := waiting - {acks[n].channel};
        }
        n := n + 1;
        assert acks[..n] == acks[..n - 1] + [acks[n - 1]];
      }
      assert ConfirmedBy(channels.Keys, acks, n);
      return true;
    }

    method Forward(m: Received)
      requires m.Message?
      modifies this`dropped, this`relayed
      ensures if m.channel in channels && channels[m.channel](m.data).Some?
              then relayed == old(relayed) + [channels[m.channel](m.data).value] && dropped == old(dropped)
              else relayed == old(relayed) && dropped == old(dropped) + 1
    {
      var text := if m.channel in channels then channels[m.channel](m.data) else None;
      if text.None? {
        dropped := dropped + 1;
      } else {
        relayed := relayed + [text.value];
      }
    }

    /** Handles one message. */
    method Handle(turn: Turn)
      requires turn.received != Failure
      modifies this`dropped, this`relayed, this`notices
      ensures Ran(channels, [turn], old(Said()), Said())
    {
      assert [turn][..0] == [];
      match turn.received
      case Message(_, _) => Forward(turn.received);
      case Subscribed(_) =>
        notices := notices + [Interrupted(turn.found)];
        notices := notices + [Resubscribed(turn.found, turn.found)];
      case _ =>
    }

    method HandleNext(turns: seq<Turn>, k: nat, ghost before: Output)
      requires k < |turns| && turns[k].received != Failure && RanTo(channels, turns, k, before, Said())
      modifies this`dropped, this`relayed, this`notices
      ensures RanTo(channels, turns, k + 1, before, Said())
    {
      ghost var mid := Said();
      Handle(turns[k]);
      RanOneMore(channels, turns, k, before, mid, Said());
    }

    /** Relays until something fails, `k` turns later. */
    method Pump(turns: seq<Turn>, started: int) returns (k: nat, failed: bool, beats: seq<Beat>)
      modifies this`dropped, this`relayed, this`notices, this`pings
      ensures RanTo(channels, turns, k, old(Said()), Said())
      ensures Ended(beats, turns, k, failed, Pulse(started, interval, deadline, old(pings) + 1), pings)
    {
      k := 0;
      var p := Pulse(started, interval, deadline, pings + 1);
      var h := Heart(None, started + interval, []);
      ghost var before := Said();
      while k < |turns|
        invariant RanTo(channels, turns, k, before, Said())
        invariant Beating(h, turns, k, p, pings)
        decreases |turns| - k
      {
        var alive;
        h, alive := Exchange(h, turns, k, p);
        if !alive {
          return k, true, h.beats;
        }
        HandleNext(turns, k, before);
        CheckKeeps(h, turns, k, p, pings);
        if h.outstanding.Some? && turns[k].checked >= h.outstanding.value.1 {
          return k + 1, true, h.beats;
        }
        k := k + 1;
      }
      StillBeating(h, turns, p, pings);
      return k, false, h.beats;
    }

    /** The first half of a turn: a ping if one is due, then whatever is received. */
    method Exchange(h: Heart, turns: seq<Turn>, k: nat, p: Pulse) returns (h': Heart, alive: bool)
      requires Beating(h, turns, k, p, pings) && k < |turns|
      modifies this`pings
      ensures if alive then turns[k].received != Failure && Caught(h', turns, k, p, pings)
              else Ended(h'.beats, turns, k, true, p, pings)
    {
      h', alive := PingIfDue(h, turns, k, p);
      if alive && turns[k].received == Failure {
        alive := false;
      } else if alive && h'.outstanding.Some? && turns[k].received == Pong(h'.outstanding.value.0) {
        AnswerKeeps(h', turns, k, p);
        h' := Answered(h', turns, k, p);
      }
    }

    method PingIfDue(h: Heart, turns: seq<Turn>, k: nat, p: Pulse) returns (h': Heart, sent: bool)
      requires Beating(h, turns, k, p, pings) && k < |turns|
      modifies this`pings
      ensures if sent then HeartOk(h', turns, k + 1, k, p) && pings + 1 == p.first + (|h'.beats| + 1) / 2
              else Ended(h'.beats, turns, k, true, p, pings)
    {
      h', sent := h, true;
      if h.outstanding.None? && turns[k].now >= h.nextPing {
        pings := pings + 1;
        if turns[k].pingFails {
          return h, false;
        }
        PingKeeps(h, turns, k, p);
        h' := Pinged(h, Payload(pings), turns, k, p);
      }
    }

    /** One attempt. It subscribes only if every channel was confirmed in it by name, and says so
        with the time since when the bridge was not listening; without that it says nothing. */
    method Try(a: Attempt, downSince: string, ghost start: string)
      returns (k: nat, failed: bool, since: string, beats: seq<Beat>)
      requires NoticesOk(notices, subscribed, start) && !subscribed && DownSince(notices, start, downSince)
      modifies this
      ensures NoticesOk(notices, subscribed, start)
      ensures subscribed <==> !failed
      ensures failed ==> DownSince(notices, start, since)
      ensures failed <== !Confirmed(channels.Keys, a)
      ensures old(notices) <= notices && SaidBy(channels.Keys, a, notices[|old(notices)|..])
      ensures !Confirmed(channels.Keys, a) ==> Said() == old(Said()) && pings == old(pings) && beats == []
      ensures k <= |a.turns| && Passed(channels, a.turns[..k], old(Said()), Said())
      ensures HeartbeatOk(beats, a.turns, PulseOf(a, interval, deadline, old(pings) + 1))
      ensures pings >= old(pings) + (|beats| + 1) / 2
      ensures Confirmed(channels.Keys, a) ==>
                && Ended(beats, a.turns, k, failed, PulseOf(a, interval, deadline, old(pings) + 1), pings)
                && k <= |a.turns| && relayed == old(relayed) + Relayed(channels, a.turns[..k])
                && notices == old(notices) + [Resubscribed(downSince, a.subscribedAt)] + Renewals(a.turns[..k])
                              + if failed then [Interrupted(a.failedAt)] else []
    {
      k, failed, since, beats := 0, true, downSince, [];
      var ok := Acknowledged(a.acks);
      if ok {
        OneMoreNotice(notices, false, start, Resubscribed(downSince, a.subscribedAt));
        subscribed := true;
        notices := notices + [Resubscribed(downSince, a.subscribedAt)];
        ghost var sofar := notices;
        k, failed, beats := Pump(a.turns, a.started);
        RenewalsKeep(sofar, start, a.turns[..k]);
        if failed {
          OneMoreNotice(notices, true, start, Interrupted(a.failedAt));
          subscribed, since := false, a.failedAt;
          notices := notices + [Interrupted(a.failedAt)];
        }
      }
    }

    /** Attempt after attempt, for as long as they fail; `parts` is what each one said, and `hearts`
        what crossed its connection. No ping of the whole run repeats another's payload, so no
        answer, however late, can pass for another's. */
    method Run(attempts: seq<Attempt>, start: string)
      returns (parts: seq<seq<Notice>>, hearts: seq<seq<Beat>>, turned: seq<nat>)
      requires notices == [] && !subscribed
      modifies this
      ensures NoticesOk(notices, subscribed, start)
      ensures subscribed <==> notices != [] && notices[|notices| - 1].Resubscribed?
      ensures notices == Joined(parts) && |hearts| == |parts|
      ensures !subscribed ==> |parts| == |attempts|
      ensures AllSaid(channels.Keys, attempts, parts)
      ensures NoPingTwice(hearts)
      ensures |turned| == |parts| && Accounted(channels, attempts, turned, old(Said()), Said())
    {
      var downSince := start;
      parts, hearts, turned := [], [], [];
      ghost var firsts: seq<nat>, said := [], Said();
      while |parts| < |attempts| && !subscribed
        invariant Going(attempts, parts, hearts, turned, firsts, said, start, downSince)
        decreases |attempts| - |parts|
      {
        ghost var first := pings + 1;
        var part, beats, k;
        part, beats, k, downSince := Again(attempts, parts, hearts, turned, firsts, said, start, downSince);
        parts, hearts, turned, firsts := parts + [part], hearts + [beats], turned + [k], firsts + [first];
      }
      StateIsLastNotice(notices, subscribed, start);
      NumberedOnce(hearts, firsts, pings);
    }

    /** A run so far: what was said is what its attempts said, and all they did is accounted for. */
    ghost predicate Going(attempts: seq<Attempt>, parts: seq<seq<Notice>>, hearts: seq<seq<Beat>>, turned: seq<nat>,
                          firsts: seq<nat>, said: Output, start: string, downSince: string)
      reads this
    {
      && |parts| == |hearts| == |turned| && notices == Joined(parts)
      && NoticesOk(notices, subscribed, start) && (!subscribed ==> DownSince(notices, start, downSince))
      && AllSaid(channels.Keys, attempts, parts) && Numbered(hearts, firsts, pings)
      && Accounted(channels, attempts, turned, said, Said())
    }

    /** The next attempt of a run. */
    method Again(attempts: seq<Attempt>, parts: seq<seq<Notice>>, ghost hearts: seq<seq<Beat>>, ghost turned: seq<nat>,
                 ghost firsts: seq<nat>, ghost said: Output, ghost start: string, downSince: string)
      returns (part: seq<Notice>, beats: seq<Beat>, k: nat, since: string)
      requires Going(attempts, parts, hearts, turned, firsts, said, start, downSince)
      requires |parts| < |attempts| && !subscribed
      modifies this
      ensures Going(attempts, parts + [part], hearts + [beats], turned + [k], firsts + [old(pings) + 1], said, start,
                    since)
    {
      var failed, before, a := true, notices, attempts[|parts|];
      ghost var first, mid := pings + 1, Said();
      k, failed, since, beats := Try(a, downSince, start);
      part := notices[|before|..];
      OneMorePart(channels.Keys, attempts, parts, part);
      JoinedOneMore(parts, part);
      assert notices == before + part;
      OneMoreHeart(hearts, firsts, first, beats, pings, a.turns, PulseOf(a, interval, deadline, first));
      OneMoreAttempt(channels, attempts, turned, k, said, mid, Said());
    }
  }
}
