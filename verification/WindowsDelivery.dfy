/** At-least-once delivery of the windows topic: src/pipeline/windows_writer.py, `run`, `apply`
    and `rewind`, and why it converges. */
module WindowsDelivery {
  import opened Basics
  import opened Windows
  import Replay

  /** The topic, partition by partition; None is a record that does not parse. */
  type Topic = seq<seq<Option<Result>>>

  /** A record handed to the writer's script, at its clock and the server's. */
  datatype Delivery = Delivery(partition: nat, offset: nat, now: int, t: int)

  predicate Valid(topic: Topic, ds: seq<Delivery>) {
    forall d :: d in ds ==> d.partition < |topic| && d.offset < |topic[d.partition]|
  }

  /** The scripts these deliveries run: a misshapen record is skipped, never retried. */
  ghost function Execs(topic: Topic, ds: seq<Delivery>): seq<Exec>
    requires Valid(topic, ds)
  {
    if ds == [] then []
    else
      var n := |ds| - 1;
      var d := ds[n];
      var r := topic[d.partition][d.offset];
      Execs(topic, ds[..n]) + (if r.Some? then [Exec(r.value, d.now, d.t)] else [])
  }

  predicate Hit(message: Option<Result>, start: int, page: string, g: int) {
    message.Some? && Matches(message.value, start, page, g)
  }

  /** The records that hold a result for this page, window and generation. */
  function Hitting(start: int, page: string, g: int): Option<Result> -> bool {
    message => Hit(message, start, page, g)
  }

  /** One partition's offsets, in the order they were delivered. */
  function Offsets(ds: seq<Delivery>, p: nat): seq<nat> {
    if ds == [] then [] else
      var d := ds[|ds| - 1];
      Offsets(ds[..|ds| - 1], p) + if d.partition == p then [d.offset] else []
  }

  lemma {:induction false} OffsetsValid(topic: Topic, ds: seq<Delivery>, p: nat)
    requires Valid(topic, ds) && p < |topic|
    ensures Replay.Valid(topic[p], Offsets(ds, p))
  {
    if ds != [] {
      OffsetsValid(topic, ds[..|ds| - 1], p);
    }
  }

  lemma {:induction false} DeliveredIff(ds: seq<Delivery>, p: nat, o: nat)
    ensures o in Offsets(ds, p) <==> Delivered(ds, p, o)
  {
    if ds != [] {
      var n := |ds| - 1;
      DeliveredIff(ds[..n], p, o);
      assert ds == ds[..n] + [ds[n]];
    }
  }

  predicate Delivered(ds: seq<Delivery>, p: nat, o: nat) {
    exists d :: d in ds && d.partition == p && d.offset == o
  }

  predicate Positions(topic: Topic, pos: seq<nat>) {
    |pos| == |topic| && forall p :: 0 <= p < |pos| ==> pos[p] <= |topic[p]|
  }

  /** What at-least-once means here: in each partition, everything before its position was delivered,
      and the last delivery of it agrees with the log's own order, whatever else was delivered. */
  ghost predicate Faithful(topic: Topic, ds: seq<Delivery>, pos: seq<nat>) {
    && Valid(topic, ds) && Positions(topic, pos)
    && forall p: nat :: p < |topic| ==> Replay.Faithful(topic[p], Offsets(ds, p), pos[p])
  }

  /** The next record of a partition is delivered, and counted. */
  lemma AcceptKeeps(topic: Topic, ds: seq<Delivery>, pos: seq<nat>, d: Delivery)
    requires Faithful(topic, ds, pos) && d.partition < |topic| && d.offset == pos[d.partition] < |topic[d.partition]|
    ensures Faithful(topic, ds + [d], pos[d.partition := d.offset + 1])
  {
    forall p: nat | p < |topic|
      ensures Replay.Faithful(topic[p], Offsets(ds + [d], p), pos[d.partition := d.offset + 1][p])
    {
      OneMoreOffset(ds, d, p);
      if p == d.partition {
        Replay.NextKeeps(topic[p], Offsets(ds, p), d.offset);
      }
    }
  }

  lemma OneMoreOffset(ds: seq<Delivery>, d: Delivery, p: nat)
    ensures Offsets(ds + [d], p) == Offsets(ds, p) + if d.partition == p then [d.offset] else []
    ensures d.partition != p ==> Offsets(ds + [d], p) == Offsets(ds, p)
  {
    assert (ds + [d])[..|ds|] == ds;
  }

  /** A record of a batch that fails as a whole may still have run: at or past the position. */
  lemma StrayKeeps(topic: Topic, ds: seq<Delivery>, pos: seq<nat>, d: Delivery)
    requires Faithful(topic, ds, pos) && d.partition < |topic| && pos[d.partition] <= d.offset < |topic[d.partition]|
    ensures Faithful(topic, ds + [d], pos)
  {
    forall p: nat | p < |topic|
      ensures Replay.Faithful(topic[p], Offsets(ds + [d], p), pos[p])
    {
      OneMoreOffset(ds, d, p);
      if p == d.partition {
        Replay.StrayKeeps(topic[p], Offsets(ds, p), pos[p], d.offset);
      }
    }
  }

  /** No position of `pos'` is past that of `pos`. */
  predicate Behind(pos': seq<nat>, pos: seq<nat>) {
    |pos'| == |pos| && forall p :: 0 <= p < |pos| ==> pos'[p] <= pos[p]
  }

  lemma BehindStill(pos': seq<nat>, pos: seq<nat>, p: nat, o: nat)
    requires Behind(pos', pos) && p < |pos| && pos[p] <= o
    ensures Behind(pos', pos[p := o])
  {
  }

  /** Going back to earlier offsets, after a failed batch or a restart, loses nothing. */
  lemma RewindKeeps(topic: Topic, ds: seq<Delivery>, pos: seq<nat>, pos': seq<nat>)
    requires Faithful(topic, ds, pos) && Behind(pos', pos)
    ensures Faithful(topic, ds, pos')
  {
    forall p: nat | p < |topic|
      ensures Replay.Faithful(topic[p], Offsets(ds, p), pos'[p])
    {
      Replay.BackKeeps(topic[p], Offsets(ds, p), pos[p], pos'[p]);
    }
  }

  /** Everything before a position was delivered. */
  lemma AllDelivered(topic: Topic, ds: seq<Delivery>, pos: seq<nat>, p: nat, o: nat)
    requires Faithful(topic, ds, pos) && p < |topic| && o < pos[p]
    ensures Delivered(ds, p, o)
  {
    Replay.AllDone(topic[p], Offsets(ds, p), pos[p], o);
    DeliveredIff(ds, p, o);
  }

  // --- the writer ---------------------------------------------------------------------------

  /** How many records a poll returned of one partition, in the order it returned them. */
  datatype Chunk = Chunk(partition: nat, count: nat)

  /** A poll: what it returned, the writer's clock, the server's clock at each script, which
      scripts ran if Redis failed, and whether the commit went through; or a restart of the
      process, which resumes at the committed offsets. */
  datatype Event =
    | Poll(batch: seq<Chunk>, now: int, times: (nat, nat) -> int, failed: bool, ran: (nat, nat) -> bool,
           committed: bool)
    | Restart

  /** The positions once a chunk is consumed: no further than the log goes. */
  function Past(topic: Topic, pos: seq<nat>, chunk: Chunk): (pos': seq<nat>)
    requires Positions(topic, pos) && chunk.partition < |topic|
    ensures Positions(topic, pos')
  {
    var p := chunk.partition;
    pos[p := if pos[p] + chunk.count <= |topic[p]| then pos[p] + chunk.count else |topic[p]|]
  }

  function PastAll(topic: Topic, pos: seq<nat>, batch: seq<Chunk>): (pos': seq<nat>)
    requires Positions(topic, pos) && forall c :: c in batch ==> c.partition < |topic|
    ensures Positions(topic, pos')
    decreases |batch|
  {
    if batch == [] then pos else PastAll(topic, Past(topic, pos, batch[0]), batch[1..])
  }

  /** A poll that returned something, all of which was written. */
  predicate Writes(e: Event) {
    e.Poll? && !e.failed && e.batch != []
  }

  /** Where the consumer ends up, and what it has committed: a failed batch moves neither, a
      restart goes back to the commit. */
  function PositionsAfter(topic: Topic, pos: seq<nat>, committed: seq<nat>, events: seq<Event>): (seq<nat>, seq<nat>)
    requires Positions(topic, pos) && Positions(topic, committed)
    requires InTopic(topic, events)
    decreases |events|
  {
    if events == [] then (pos, committed)
    else
      var e := events[0];
      assert e in events;
      if e.Restart? then PositionsAfter(topic, committed, committed, events[1..])
      else if e.failed then PositionsAfter(topic, pos, committed, events[1..])
      else
        var pos' := PastAll(topic, pos, e.batch);
        PositionsAfter(topic, pos', if Writes(e) && e.committed then pos' else committed, events[1..])
  }

  // --- what the positions are ------------------------------------------------------------------

  function Least(a: nat, b: nat): nat {
    if a <= b then a else b
  }

  /** How many records a poll returned of one partition. */
  function Polled(batch: seq<Chunk>, p: nat): nat {
    if batch == [] then 0 else (if batch[0].partition == p then batch[0].count else 0) + Polled(batch[1..], p)
  }

  /** A poll's records move each partition by as many as were returned of it, to the log's end at most. */
  lemma {:induction false} PastAllExactly(topic: Topic, pos: seq<nat>, batch: seq<Chunk>, p: nat)
    requires Positions(topic, pos) && p < |topic| && forall c :: c in batch ==> c.partition < |topic|
    ensures PastAll(topic, pos, batch)[p] == Least(pos[p] + Polled(batch, p), |topic[p]|)
    decreases |batch|
  {
    if batch != [] {
      PastAllExactly(topic, Past(topic, pos, batch[0]), batch[1..], p);
    }
  }

  /** Each position moved by exactly what the poll returned of its partition. */
  ghost predicate MovesBy(topic: Topic, pos: seq<nat>, pos': seq<nat>, batch: seq<Chunk>) {
    && |pos| == |pos'| == |topic|
    && forall p :: 0 <= p < |topic| ==> pos'[p] == Least(pos[p] + Polled(batch, p), |topic[p]|)
  }

  lemma AllPastExactly(topic: Topic, pos: seq<nat>, batch: seq<Chunk>)
    requires Positions(topic, pos) && forall c :: c in batch ==> c.partition < |topic|
    ensures MovesBy(topic, pos, PastAll(topic, pos, batch), batch)
  {
    forall p: nat | p < |topic| {
      PastAllExactly(topic, pos, batch, p);
    }
  }

  function PolledOver(events: seq<Event>, p: nat): nat {
    if events == [] then 0
    else (if events[0].Poll? then Polled(events[0].batch, p) else 0) + PolledOver(events[1..], p)
  }

  /** Polls, none of which failed. */
  ghost predicate AllWell(events: seq<Event>) {
    forall e :: e in events ==> e.Poll? && !e.failed
  }

  ghost predicate InTopic(topic: Topic, events: seq<Event>) {
    forall e, c :: e in events && e.Poll? && c in e.batch ==> c.partition < |topic|
  }

  lemma {:induction false} PositionsTogether(topic: Topic, pos: seq<nat>, committed: seq<nat>, before: seq<Event>,
                                             after: seq<Event>)
    requires Positions(topic, pos) && Positions(topic, committed)
    requires InTopic(topic, before + after) && InTopic(topic, before) && InTopic(topic, after)
    ensures var (pos', committed') := PositionsAfter(topic, pos, committed, before);
            && Positions(topic, pos') && Positions(topic, committed')
            && PositionsAfter(topic, pos, committed, before + after) == PositionsAfter(topic, pos', committed', after)
    decreases |before|
  {
    if before == [] {
      assert before + after == after;
    } else {
      var e, rest := before[0], before[1..];
      assert (before + after)[0] == e && (before + after)[1..] == rest + after;
      var pos' := if e.Restart? then committed else if e.failed then pos else PastAll(topic, pos, e.batch);
      PositionsTogether(topic, pos', if Writes(e) && e.committed then pos' else committed, rest, after);
    }
  }

  lemma {:induction false} WellPositions(topic: Topic, pos: seq<nat>, committed: seq<nat>, events: seq<Event>, p: nat)
    requires Positions(topic, pos) && Positions(topic, committed) && InTopic(topic, events) && AllWell(events)
    requires p < |topic|
    ensures var end := PositionsAfter(topic, pos, committed, events).0;
            |end| == |topic| && end[p] == Least(pos[p] + PolledOver(events, p), |topic[p]|)
    decreases |events|
  {
    if events != [] {
      var e := events[0];
      assert e in events;
      PastAllExactly(topic, pos, e.batch, p);
      var pos' := PastAll(topic, pos, e.batch);
      WellPositions(topic, pos', if Writes(e) && e.committed then pos' else committed, events[1..], p);
    }
  }

  /** Whatever went before, polls that go well drain the topic if and only if, in each partition, they
      return as many records as were left to read. */
  lemma DrainsExactly(topic: Topic, pos: seq<nat>, committed: seq<nat>, before: seq<Event>, after: seq<Event>)
    requires Positions(topic, pos) && Positions(topic, committed)
    requires InTopic(topic, before + after) && InTopic(topic, before) && InTopic(topic, after) && AllWell(after)
    ensures var start, end := PositionsAfter(topic, pos, committed, before).0,
                              PositionsAfter(topic, pos, committed, before + after).0;
            && Positions(topic, start) && Positions(topic, end)
            && (Drained(topic, end) <==>
                  forall p: nat :: p < |topic| ==> |topic[p]| - start[p] <= PolledOver(after, p))
  {
    PositionsTogether(topic, pos, committed, before, after);
    var mid := PositionsAfter(topic, pos, committed, before);
    forall p: nat | p < |topic|
      ensures var end := PositionsAfter(topic, mid.0, mid.1, after).0;
              |end| == |topic| && end[p] == Least(mid.0[p] + PolledOver(after, p), |topic[p]|)
    {
      WellPositions(topic, mid.0, mid.1, after, p);
    }
    PositionsTogether(topic, pos, committed, before + after, []);
  }

  /** The run ends with polls that go well and between them return every partition whole. */
  ghost predicate ReadsThrough(topic: Topic, events: seq<Event>) {
    exists n :: 0 <= n <= |events| && AllWell(events[n..])
             && forall p: nat :: p < |topic| ==> |topic[p]| <= PolledOver(events[n..], p)
  }

  lemma ReadThroughDrains(topic: Topic, pos: seq<nat>, committed: seq<nat>, events: seq<Event>)
    requires Positions(topic, pos) && Positions(topic, committed) && InTopic(topic, events)
    requires ReadsThrough(topic, events)
    ensures Drained(topic, PositionsAfter(topic, pos, committed, events).0)
  {
    var n :| 0 <= n <= |events| && AllWell(events[n..])
          && forall p: nat :: p < |topic| ==> |topic[p]| <= PolledOver(events[n..], p);
    assert events == events[..n] + events[n..];
    DrainsExactly(topic, pos, committed, events[..n], events[n..]);
  }

  // --- what is delivered --------------------------------------------------------------------------

  function Range(from: nat, to: nat): seq<nat>
    requires from <= to
  {
    if from == to then [] else Range(from, to - 1) + [to - 1]
  }

  lemma {:induction false} RangesJoin(from: nat, mid: nat, end: nat)
    requires from <= mid <= end
    ensures Range(from, mid) + Range(mid, end) == Range(from, end)
    decreases end
  {
    if mid < end {
      RangesJoin(from, mid, end - 1);
    }
  }

  /** From `ds` to `ds'`, each partition was delivered from its old position to its new one: every
      offset once, in order. */
  ghost predicate Reads(ds: seq<Delivery>, ds': seq<Delivery>, pos: seq<nat>, pos': seq<nat>) {
    && |pos| == |pos'|
    && forall p: nat :: p < |pos| ==>
         pos[p] <= pos'[p] && Offsets(ds', p) == Offsets(ds, p) + Range(pos[p], pos'[p])
  }

  lemma ReadsNothing(ds: seq<Delivery>, pos: seq<nat>)
    ensures Reads(ds, ds, pos, pos)
  {
  }

  lemma ReadsNext(ds: seq<Delivery>, ds': seq<Delivery>, d: Delivery, pos: seq<nat>, pos': seq<nat>)
    requires Reads(ds, ds', pos, pos') && d.partition < |pos| && d.offset == pos'[d.partition]
    ensures Reads(ds, ds' + [d], pos, pos'[d.partition := d.offset + 1])
  {
    forall p: nat | p < |pos|
      ensures Offsets(ds' + [d], p) == Offsets(ds, p) + Range(pos[p], pos'[d.partition := d.offset + 1][p])
    {
      OneMoreOffset(ds', d, p);
    }
  }

  lemma ReadsOn(ds: seq<Delivery>, ds': seq<Delivery>, ds'': seq<Delivery>, pos: seq<nat>, pos': seq<nat>,
                pos'': seq<nat>)
    requires Reads(ds, ds', pos, pos') && Reads(ds', ds'', pos', pos'')
    ensures Reads(ds, ds'', pos, pos'')
  {
    forall p: nat | p < |pos|
      ensures pos[p] <= pos''[p] && Offsets(ds'', p) == Offsets(ds, p) + Range(pos[p], pos''[p])
    {
      RangesJoin(pos[p], pos'[p], pos''[p]);
    }
  }

  /** The offsets from `from` up to `to` that ran. */
  function Ran(from: nat, to: nat, ran: nat -> bool): seq<nat>
    requires from <= to
  {
    if from == to then [] else Ran(from, to - 1, ran) + if ran(to - 1) then [to - 1] else []
  }

  /** From `ds` to `ds'`, the partition was delivered those of its offsets that ran. */
  predicate Strays(ds: seq<Delivery>, ds': seq<Delivery>, p: nat, from: nat, to: nat, ran: nat -> bool) {
    from <= to && Offsets(ds', p) == Offsets(ds, p) + Ran(from, to, ran)
  }

  lemma StraysNext(ds: seq<Delivery>, ds': seq<Delivery>, d: Delivery, from: nat, ran: nat -> bool)
    requires Strays(ds, ds', d.partition, from, d.offset, ran)
    ensures Strays(ds, if ran(d.offset) then ds' + [d] else ds', d.partition, from, d.offset + 1, ran)
  {
    OneMoreOffset(ds', d, d.partition);
  }

  const RETRY_INITIAL_SECONDS := 0.5
  const RETRY_MAX_SECONDS := 10.0

  /** Doubled up to the most after a failure, and back to the least after a success. */
  function NextRetry(retry: real, failed: bool): (next: real)
    requires 0.5 <= retry <= 10.0
    ensures 0.5 <= next <= 10.0
    ensures !failed ==> next == 0.5
    ensures failed ==> next == 10.0 || next == 2.0 * retry
    ensures failed && retry < 10.0 ==> retry < next
  {
    if !failed then RETRY_INITIAL_SECONDS
    else if retry * 2.0 < RETRY_MAX_SECONDS then retry * 2.0 else RETRY_MAX_SECONDS
  }

  class Writer {
    const topic: Topic
    const retention: int
    const redis: Redis
    var pos: seq<nat>
    var committed: seq<nat>
    var retry: real
    // The clock, as it was read for the batch.
    var now: int
    ghost var delivered: seq<Delivery>

    ghost predicate Ok()
      reads this, redis
    {
      && Faithful(topic, delivered, pos)
      && redis.View() == StoreAfter(Execs(topic, delivered), retention)
      && Behind(committed, pos)
      && RETRY_INITIAL_SECONDS <= retry <= RETRY_MAX_SECONDS
    }

    constructor (topic: Topic, retention: int)
      ensures Ok() && this.topic == topic && this.retention == retention && fresh(redis)
    {
      this.topic, this.retention := topic, retention;
      redis := new Redis();
      pos := seq(|topic|, i => 0);
      committed := seq(|topic|, i => 0);
      retry, now := RETRY_INITIAL_SECONDS, 0;
      delivered := [];
    }

    /** One record to its script; a misshapen one runs none. */
    method Deliver(partition: nat, offset: nat, t: int)
      requires Valid(topic, delivered) && redis.View() == StoreAfter(Execs(topic, delivered), retention)
      requires partition < |topic| && offset < |topic[partition]|
      modifies redis, this`delivered
      ensures delivered == old(delivered) + [Delivery(partition, offset, now, t)]
      ensures Valid(topic, delivered) && redis.View() == StoreAfter(Execs(topic, delivered), retention)
    {
      OneMore(topic, delivered, Delivery(partition, offset, now, t), retention);
      var message := topic[partition][offset];
      if message.Some? {
        var outcome := redis.Script(message.value, retention, now, t);
      }
      delivered := delivered + [Delivery(partition, offset, now, t)];
    }

    /** The next record of a partition, delivered and counted. */
    method Accept(p: nat, t: int)
      requires Ok() && p < |topic| && pos[p] < |topic[p]|
      modifies this`pos, this`delivered, redis
      ensures Ok() && pos == old(pos)[p := old(pos)[p] + 1]
      ensures delivered == old(delivered) + [Delivery(p, old(pos)[p], now, t)]
    {
      var at, o := pos, pos[p];
      AcceptKeeps(topic, delivered, at, Delivery(p, o, now, t));
      BehindStill(committed, at, p, o + 1);
      Deliver(p, o, t);
      pos := at[p := o + 1];
    }

    /** A record of a batch that fails, delivered all the same if its script ran. */
    method Stray(p: nat, o: nat, t: int, ran: bool)
      requires Ok() && p < |topic| && pos[p] <= o < |topic[p]|
      modifies this`delivered, redis
      ensures Ok() && delivered == if ran then old(delivered) + [Delivery(p, o, now, t)] else old(delivered)
    {
      if ran {
        StrayKeeps(topic, delivered, pos, Delivery(p, o, now, t));
        Deliver(p, o, t);
      }
    }

    /** A partition's records of a batch that succeeds: each delivered, the position past them. */
    method AcceptChunk(chunk: Chunk, t: nat -> int)
      requires Ok() && chunk.partition < |topic|
      modifies this`pos, this`delivered, redis
      ensures Ok() && pos == Past(topic, old(pos), chunk) && Reads(old(delivered), delivered, old(pos), pos)
    {
      var p, end := chunk.partition, Past(topic, pos, chunk)[chunk.partition];
      ghost var first := pos;
      var o := pos[p];
      ReadsNothing(delivered, pos);
      while o < end
        invariant Ok() && pos == first[p := o] && first[p] <= o <= end
        invariant Reads(old(delivered), delivered, first, pos)
      {
        ReadsNext(old(delivered), delivered, Delivery(p, o, now, t(o)), first, pos);
        Accept(p, t(o));
        o := o + 1;
      }
    }

    /** A partition's records of a batch that fails: whichever ran, in order, and no more. */
    method StrayChunk(chunk: Chunk, t: nat -> int, ran: nat -> bool)
      requires Ok() && chunk.partition < |topic|
      modifies this`delivered, redis
      ensures Ok()
      ensures var p := chunk.partition;
              Strays(old(delivered), delivered, p, pos[p], Least(pos[p] + chunk.count, |topic[p]|), ran)
    {
      var p, from := chunk.partition, pos[chunk.partition];
      var to := Least(from + chunk.count, |topic[p]|);
      ghost var first := delivered;
      for o := from to to
        invariant Ok() && Strays(first, delivered, p, from, o, ran)
      {
        StraysNext(first, delivered, Delivery(p, o, now, t(o)), from, ran);
        Stray(p, o, t(o), ran(o));
      }
    }

    /** A batch that succeeds, chunk by chunk. */
    method Apply(poll: Event)
      requires Ok() && poll.Poll? && forall c :: c in poll.batch ==> c.partition < |topic|
      modifies this`pos, this`delivered, redis
      ensures Ok() && Reads(old(delivered), delivered, old(pos), pos) && pos == PastAll(topic, old(pos), poll.batch)
      ensures MovesBy(topic, old(pos), pos, poll.batch)
    {
      AllPastExactly(topic, pos, poll.batch);
      var ds := poll.batch;
      ghost var first := pos;
      ReadsNothing(delivered, pos);
      for i := 0 to |ds|
        invariant Ok() && PastAll(topic, pos, ds[i..]) == PastAll(topic, first, ds)
        invariant Reads(old(delivered), delivered, first, pos)
      {
        assert ds[i] in ds && ds[i..][0] == ds[i] && ds[i..][1..] == ds[i + 1..];
        ghost var before, at := delivered, pos;
        AcceptChunk(ds[i], (o: nat) => poll.times(i, o));
        ReadsOn(old(delivered), before, delivered, first, at, pos);
      }
    }

    /** A batch that fails, having written whatever ran of it. */
    method Fail(poll: Event)
      requires Ok() && poll.Poll? && forall c :: c in poll.batch ==> c.partition < |topic|
      modifies this`delivered, redis
      ensures Ok()
    {
      for i := 0 to |poll.batch|
        invariant Ok()
      {
        assert poll.batch[i] in poll.batch;
        StrayChunk(poll.batch[i], (o: nat) => poll.times(i, o), (o: nat) => poll.ran(i, o));
      }
    }

    /** One poll: nothing to do if it is empty. Otherwise write it; on failure go back to its first
        offsets and wait longer; on success commit, though the commit itself may fail. */
    method Step(poll: Event)
      requires Ok() && poll.Poll? && forall c :: c in poll.batch ==> c.partition < |topic|
      modifies this, redis
      ensures Ok()
      ensures pos == if poll.failed then old(pos) else PastAll(topic, old(pos), poll.batch)
      ensures committed == if Writes(poll) && poll.committed then pos else old(committed)
      ensures !poll.failed ==> Reads(old(delivered), delivered, old(pos), pos)
      ensures !poll.failed ==> MovesBy(topic, old(pos), pos, poll.batch)
      ensures if poll.batch == [] then delivered == old(delivered) else now == poll.now
      ensures retry == if poll.batch == [] then old(retry) else NextRetry(old(retry), poll.failed)
    {
      ReadsNothing(delivered, pos);
      AllPastExactly(topic, pos, poll.batch);
      if poll.batch != [] {
        now := poll.now;
        if poll.failed {
          Fail(poll);
        } else {
          Apply(poll);
          if poll.committed {
            committed := pos;
          }
        }
        retry := NextRetry(retry, poll.failed);
      }
    }

    /** The writer's loop over any sequence of polls, failures and restarts. */
    method Run(events: seq<Event>)
      requires Ok() && InTopic(topic, events)
      modifies this, redis
      ensures Ok()
      ensures (pos, committed) == PositionsAfter(topic, old(pos), old(committed), events)
    {
      for i := 0 to |events|
        invariant Ok()
        invariant PositionsAfter(topic, pos, committed, events[i..]) ==
                    PositionsAfter(topic, old(pos), old(committed), events)
      {
        assert events[i] in events && events[i..][0] == events[i] && events[i..][1..] == events[i + 1..];
        if events[i].Poll? {
          Step(events[i]);
        } else {
          RewindKeeps(topic, delivered, pos, committed);
          pos, retry := committed, RETRY_INITIAL_SECONDS;
        }
      }
    }
  }

  lemma OneMore(topic: Topic, ds: seq<Delivery>, d: Delivery, retention: int)
    requires Valid(topic, ds) && d.partition < |topic| && d.offset < |topic[d.partition]|
    ensures Valid(topic, ds + [d])
    ensures var st := StoreAfter(Execs(topic, ds), retention);
            var r := topic[d.partition][d.offset];
            StoreAfter(Execs(topic, ds + [d]), retention) ==
            if r.Some? then After(st, r.value, retention, d.now, d.t) else st
  {
    assert (ds + [d])[..|ds|] == ds;
    var before, all := Execs(topic, ds), Execs(topic, ds + [d]);
    if topic[d.partition][d.offset].Some? {
      assert all[..|before|] == before;
    } else {
      assert all == before;
    }
  }

  // --- convergence ------------------------------------------------------------------------------

  /** One page's results stay on one partition: the topic is keyed by page. */
  ghost predicate Keyed(topic: Topic) {
    forall p, q, i, j ::
      (&& 0 <= p < |topic| && 0 <= q < |topic| && 0 <= i < |topic[p]| && 0 <= j < |topic[q]|
       && topic[p][i].Some? && topic[q][j].Some? && topic[p][i].value.page == topic[q][j].value.page)
      ==> p == q
  }

  ghost predicate Drained(topic: Topic, pos: seq<nat>) {
    |pos| == |topic| && forall p :: 0 <= p < |topic| ==> pos[p] == |topic[p]|
  }

  ghost predicate OnlyIn(topic: Topic, p: nat, page: string) {
    && p < |topic|
    && forall q, i ::
         0 <= q < |topic| && 0 <= i < |topic[q]| && topic[q][i].Some? && topic[q][i].value.page == page ==> q == p
  }

  lemma HomeOf(topic: Topic, page: string) returns (p: nat)
    requires Keyed(topic) && topic != []
    ensures OnlyIn(topic, p, page)
  {
    if q, i :| 0 <= q < |topic| && 0 <= i < |topic[q]| && topic[q][i].Some? && topic[q][i].value.page == page {
      p := q;
    } else {
      p := 0;
    }
  }

  lemma LastOneMore(log: seq<Option<Result>>, ds: seq<Delivery>, d: Delivery, p: nat, kind: Option<Result> -> bool)
    requires Replay.Valid(log, Offsets(ds, p)) && (d.partition == p ==> d.offset < |log|)
    ensures Replay.Valid(log, Offsets(ds + [d], p))
    ensures Replay.LastDone(log, Offsets(ds + [d], p), |log|, kind) ==
            if d.partition == p && kind(log[d.offset]) then Some(d.offset)
            else Replay.LastDone(log, Offsets(ds, p), |log|, kind)
  {
    OneMoreOffset(ds, d, p);
    if d.partition == p {
      assert (Offsets(ds, p) + [d.offset])[..|Offsets(ds, p)|] == Offsets(ds, p);
    }
  }

  /** What the last delivery from its own partition says of a page. */
  ghost function LastFrom(topic: Topic, ds: seq<Delivery>, p: nat, start: int, page: string, g: int): Option<Result>
    requires Valid(topic, ds) && p < |topic|
  {
    OffsetsValid(topic, ds, p);
    var o := Replay.LastDone(topic[p], Offsets(ds, p), |topic[p]|, Hitting(start, page, g));
    if o.Some? then topic[p][o.value] else None
  }

  /** The last script for a page is the last delivery from the page's own partition. */
  lemma {:induction false} LastIsLastDelivered(topic: Topic, ds: seq<Delivery>, p: nat, start: int, page: string,
                                               g: int)
    requires Valid(topic, ds) && OnlyIn(topic, p, page)
    ensures Last(Results(Execs(topic, ds)), start, page, g) == LastFrom(topic, ds, p, start, page, g)
    decreases |ds|
  {
    if ds != [] {
      var n := |ds| - 1;
      LastIsLastDelivered(topic, ds[..n], p, start, page, g);
      LastFromOneMore(topic, ds, p, start, page, g);
      LastExec(topic, ds, start, page, g);
    }
  }

  lemma LastFromOneMore(topic: Topic, ds: seq<Delivery>, p: nat, start: int, page: string, g: int)
    requires Valid(topic, ds) && OnlyIn(topic, p, page) && ds != []
    ensures var d := ds[|ds| - 1];
            var m := topic[d.partition][d.offset];
            LastFrom(topic, ds, p, start, page, g) ==
            if Hit(m, start, page, g) then m else LastFrom(topic, ds[..|ds| - 1], p, start, page, g)
  {
    var before, d := ds[..|ds| - 1], ds[|ds| - 1];
    assert ds == before + [d];
    OffsetsValid(topic, before, p);
    LastOneMore(topic[p], before, d, p, Hitting(start, page, g));
    assert Hit(topic[d.partition][d.offset], start, page, g) ==> d.partition == p;
  }

  lemma LastExec(topic: Topic, ds: seq<Delivery>, start: int, page: string, g: int)
    requires Valid(topic, ds) && ds != []
    ensures var before, d := ds[..|ds| - 1], ds[|ds| - 1];
            var m := topic[d.partition][d.offset];
            Last(Results(Execs(topic, ds)), start, page, g) ==
            if Hit(m, start, page, g) then m else Last(Results(Execs(topic, before)), start, page, g)
  {
    var n := |ds| - 1;
    var m := topic[ds[n].partition][ds[n].offset];
    var before, rs := Results(Execs(topic, ds[..n])), Results(Execs(topic, ds));
    if m.Some? {
      assert rs == before + [m.value] && rs[..|before|] == before;
    } else {
      assert rs == before;
    }
  }

  lemma {:induction false} ScriptsComeFromDeliveries(topic: Topic, ds: seq<Delivery>, r: Result)
    requires Valid(topic, ds)
    ensures r in Results(Execs(topic, ds)) <==> exists d :: d in ds && topic[d.partition][d.offset] == Some(r)
    decreases |ds|
  {
    if ds != [] {
      var n := |ds| - 1;
      ScriptsComeFromDeliveries(topic, ds[..n], r);
      var m := topic[ds[n].partition][ds[n].offset];
      var before, rs := Results(Execs(topic, ds[..n])), Results(Execs(topic, ds));
      assert rs == before + (if m.Some? then [m.value] else []);
      assert ds == ds[..n] + [ds[n]];
      if d :| d in ds && topic[d.partition][d.offset] == Some(r) {
        assert d in ds[..n] || d == ds[n];
      }
    }
  }

  lemma DrainedNewest(topic: Topic, ds: seq<Delivery>, ds': seq<Delivery>, pos: seq<nat>, start: int)
    requires Valid(topic, ds) && Faithful(topic, ds', pos) && Drained(topic, pos)
    ensures Newest(Results(Execs(topic, ds)), start) <= Newest(Results(Execs(topic, ds')), start)
  {
    var rs := Results(Execs(topic, ds));
    if Newest(rs, start) >= 0 {
      var r :| r in rs && r.start == start && r.generation == Newest(rs, start);
      ScriptsComeFromDeliveries(topic, ds, r);
      var d :| d in ds && topic[d.partition][d.offset] == Some(r);
      AllDelivered(topic, ds', pos, d.partition, d.offset);
      var d' :| d' in ds' && d'.partition == d.partition && d'.offset == d.offset;
      ScriptsComeFromDeliveries(topic, ds', r);
    }
  }

  /** Two ways of delivering the whole topic, however they replayed and interleaved it, agree
      on each window's newest generation and on each page's last result in it. */
  lemma DrainedAgree(topic: Topic, ds: seq<Delivery>, ds': seq<Delivery>, pos: seq<nat>, pos': seq<nat>, start: int)
    requires Keyed(topic)
    requires Faithful(topic, ds, pos) && Drained(topic, pos) && Faithful(topic, ds', pos') && Drained(topic, pos')
    ensures Newest(Results(Execs(topic, ds)), start) == Newest(Results(Execs(topic, ds')), start)
    ensures forall page, g ::
              Last(Results(Execs(topic, ds)), start, page, g) == Last(Results(Execs(topic, ds')), start, page, g)
  {
    DrainedNewest(topic, ds, ds', pos', start);
    DrainedNewest(topic, ds', ds, pos, start);
    forall page, g
      ensures Last(Results(Execs(topic, ds)), start, page, g) == Last(Results(Execs(topic, ds')), start, page, g)
    {
      if topic == [] {
        NothingFromNothing(topic, ds);
        NothingFromNothing(topic, ds');
      } else {
        var p := HomeOf(topic, page);
        LastIsLastDelivered(topic, ds, p, start, page, g);
        LastIsLastDelivered(topic, ds', p, start, page, g);
        SameLast(topic, ds, ds', pos, pos', p, start, page, g);
      }
    }
  }

  lemma SameLast(topic: Topic, ds: seq<Delivery>, ds': seq<Delivery>, pos: seq<nat>, pos': seq<nat>, p: nat, start: int,
                 page: string, g: int)
    requires p < |topic|
    requires Faithful(topic, ds, pos) && Drained(topic, pos) && Faithful(topic, ds', pos') && Drained(topic, pos')
    ensures LastFrom(topic, ds, p, start, page, g) == LastFrom(topic, ds', p, start, page, g)
  {
    var log := topic[p];
    assert Replay.InOrder(log, Offsets(ds, p), |log|) && Replay.InOrder(log, Offsets(ds', p), |log|);
  }

  lemma NothingFromNothing(topic: Topic, ds: seq<Delivery>)
    requires Valid(topic, ds)
    ensures topic == [] ==> ds == []
  {
    if ds != [] {
      assert ds[0] in ds;
    }
  }

  /** At-least-once delivery converges. Once every partition is drained, through any
      interleaving, any failed batches and any rewinds, each window still live holds exactly
      what the rule says of the topic: the newest generation, and its last result per page.
      `read` is any complete reading of the topic, such as one delivery in order. */
  lemma DeliveryConverges(topic: Topic, ds: seq<Delivery>, pos: seq<nat>, read: seq<Delivery>, end: seq<nat>, c: Config,
                          t: int, start: int)
    requires Keyed(topic)
    requires Faithful(topic, ds, pos) && Drained(topic, pos) && Faithful(topic, read, end) && Drained(topic, end)
    requires WellTimed(Execs(topic, ds), c) && Live(c, t, start)
    requires forall e :: e in Execs(topic, ds) ==> e.t <= t
    ensures Holds(StoreAfter(Execs(topic, ds), c.retention), Results(Execs(topic, read)), c, start)
  {
    var execs := Execs(topic, ds);
    assert execs != [] ==> execs[|execs| - 1] in execs;
    ScriptsHold(execs, c, start);
    DrainedAgree(topic, ds, read, pos, end, start);
    var st, rs, rs', g := StoreAfter(execs, c.retention), Results(execs), Results(Execs(topic, read)),
      Newest(Results(execs), start);
    if g >= 0 {
      forall page
        ensures Get(st.hash[start].pages, page) == LastViews(rs', start, page, g)
      {
        assert Last(rs, start, page, g) == Last(rs', start, page, g);
      }
    }
  }

  /** The two stores agree on a window: its counts, its meta, and its place in the index. */
  predicate SameFor(st: Store, st': Store, start: int) {
    && (start in st.index <==> start in st'.index)
    && (start in st.hash <==> start in st'.hash) && (start in st.meta <==> start in st'.meta)
    && (start in st.hash ==> start in st'.hash && st.hash[start] == st'.hash[start])
    && (start in st.meta ==> start in st'.meta && st.meta[start] == st'.meta[start])
  }

  /** So a run with failures and a run without leave the same counts and the same meta. */
  lemma ReplayLeavesNoTrace(topic: Topic, ds: seq<Delivery>, pos: seq<nat>, ds': seq<Delivery>, pos': seq<nat>,
                            c: Config, t: int, start: int)
    requires Keyed(topic)
    requires Faithful(topic, ds, pos) && Drained(topic, pos) && Faithful(topic, ds', pos') && Drained(topic, pos')
    requires WellTimed(Execs(topic, ds), c) && WellTimed(Execs(topic, ds'), c) && Live(c, t, start)
    requires forall e :: e in Execs(topic, ds) + Execs(topic, ds') ==> e.t <= t
    ensures SameFor(StoreAfter(Execs(topic, ds), c.retention), StoreAfter(Execs(topic, ds'), c.retention), start)
  {
    assert forall e :: e in Execs(topic, ds) ==> e in Execs(topic, ds) + Execs(topic, ds');
    assert forall e :: e in Execs(topic, ds') ==> e in Execs(topic, ds) + Execs(topic, ds');
    DeliveryConverges(topic, ds, pos, ds', pos', c, t, start);
    DeliveryConverges(topic, ds', pos', ds', pos', c, t, start);
    SameWindow(StoreAfter(Execs(topic, ds), c.retention), StoreAfter(Execs(topic, ds'), c.retention),
               Results(Execs(topic, ds')), c, start);
  }

  lemma SameWindow(st: Store, st': Store, rs: seq<Result>, c: Config, start: int)
    requires Holds(st, rs, c, start) && Holds(st', rs, c, start)
    ensures SameFor(st, st', start)
  {
    if start in st.hash {
      var pages, pages' := st.hash[start].pages, st'.hash[start].pages;
      forall page
        ensures page in pages <==> page in pages'
        ensures page in pages ==> pages[page] == pages'[page]
      {
        assert Get(pages, page) == Get(pages', page);
      }
      assert pages == pages';
    }
  }

  // --- one reading in order, and any run against it ------------------------------------------------

  /** The first `p` partitions whole, then `k` records of the next, each read once and in order. */
  function Reading(topic: Topic, p: nat, k: nat): seq<Delivery>
    requires p <= |topic|
    decreases p, k
  {
    if k > 0 then Reading(topic, p, k - 1) + [Delivery(p, k - 1, 0, 0)]
    else if p > 0 then Reading(topic, p - 1, |topic[p - 1]|)
    else []
  }

  function ReadUpTo(topic: Topic, p: nat, k: nat): seq<nat> {
    seq(|topic|, i requires 0 <= i < |topic| => if i < p then |topic[i]| else if i == p then k else 0)
  }

  lemma {:induction false} ReadingFaithful(topic: Topic, p: nat, k: nat)
    requires p <= |topic| && k <= (if p < |topic| then |topic[p]| else 0)
    ensures Faithful(topic, Reading(topic, p, k), ReadUpTo(topic, p, k))
    decreases p, k
  {
    if k > 0 {
      ReadingFaithful(topic, p, k - 1);
      ReadNext(topic, Reading(topic, p, k - 1), p, k);
    } else if p > 0 {
      ReadingFaithful(topic, p - 1, |topic[p - 1]|);
      ReadOver(topic, p);
    } else {
      NothingRead(topic);
    }
  }

  lemma ReadNext(topic: Topic, ds: seq<Delivery>, p: nat, k: nat)
    requires p < |topic| && 0 < k <= |topic[p]| && Faithful(topic, ds, ReadUpTo(topic, p, k - 1))
    ensures Faithful(topic, ds + [Delivery(p, k - 1, 0, 0)], ReadUpTo(topic, p, k))
  {
    AcceptKeeps(topic, ds, ReadUpTo(topic, p, k - 1), Delivery(p, k - 1, 0, 0));
    ReadFurther(topic, p, k);
  }

  lemma ReadFurther(topic: Topic, p: nat, k: nat)
    requires p < |topic| && k > 0
    ensures ReadUpTo(topic, p, k) == ReadUpTo(topic, p, k - 1)[p := k]
  {
  }

  lemma ReadOver(topic: Topic, p: nat)
    requires 0 < p <= |topic|
    ensures ReadUpTo(topic, p, 0) == ReadUpTo(topic, p - 1, |topic[p - 1]|)
  {
  }

  lemma NothingRead(topic: Topic)
    ensures Faithful(topic, [], ReadUpTo(topic, 0, 0))
  {
  }

  /** The whole topic's results, read once and in order. */
  ghost function TopicResults(topic: Topic): seq<Result> {
    ReadingFaithful(topic, |topic|, 0);
    Results(Execs(topic, Reading(topic, |topic|, 0)))
  }

  /** A fresh writer over any polls, failures and restarts: if that drains the topic, Redis holds for
      every window still live exactly what the rule says of the topic read once and in order. */
  method Converge(topic: Topic, c: Config, events: seq<Event>, t: int) returns (writer: Writer)
    requires InTopic(topic, events)
    ensures writer.topic == topic && Valid(topic, writer.delivered)
    ensures ReadsThrough(topic, events) ==> Drained(topic, writer.pos)
    ensures Keyed(topic) && Drained(topic, writer.pos) && WellTimed(Execs(topic, writer.delivered), c)
            && (forall e :: e in Execs(topic, writer.delivered) ==> e.t <= t) ==>
              forall start :: Live(c, t, start) ==> Holds(writer.redis.View(), TopicResults(topic), c, start)
  {
    writer := new Writer(topic, c.retention);
    ghost var pos, committed := writer.pos, writer.committed;
    writer.Run(events);
    if ReadsThrough(topic, events) {
      ReadThroughDrains(topic, pos, committed, events);
    }
    ghost var ds := writer.delivered;
    if Keyed(topic) && Drained(topic, writer.pos) && WellTimed(Execs(topic, ds), c)
       && forall e :: e in Execs(topic, ds) ==> e.t <= t {
      ReadingFaithful(topic, |topic|, 0);
      forall start | Live(c, t, start)
        ensures Holds(writer.redis.View(), TopicResults(topic), c, start)
      {
        DeliveryConverges(topic, ds, writer.pos, Reading(topic, |topic|, 0), ReadUpTo(topic, |topic|, 0), c, t, start);
      }
    }
  }
}
