/** Replay accounting: src/pipeline/kafka_consumer.py, `handle` and `consume_forever`, with the
    Redis writes of src/pipeline/redis_store.py, the Cassandra row of
    src/pipeline/cassandra_store.py and the job of src/pipeline/jobs_queue.py. The process may
    die by the injected crash, or anywhere inside `handle`. */
module KafkaConsumer {
  import opened Basics
  import opened Replay

  datatype Event = Event(user: string, time: int, id: string, page: string)

  /** What a store keeps one value for: a Cassandra row's primary key, or a user's last page. */
  datatype Key = Row(user: string, time: int, id: string) | LastPage(user: string)

  predicate Touches(e: Event, key: Key) {
    key == Row(e.user, e.time, e.id) || key == LastPage(e.user)
  }

  /** The events that write a key. */
  function Touching(key: Key): Event -> bool {
    e => Touches(e, key)
  }

  function CountOf(log: seq<Event>, ds: seq<nat>, page: string): nat
    requires Valid(log, ds)
  {
    if ds == [] then 0
    else CountOf(log, ds[..|ds| - 1], page) + (if log[ds[|ds| - 1]].page == page then 1 else 0)
  }

  // --- the four writes of one event ---------------------------------------------------------------

  /** The offsets whose counter, last page, row and job were written, each in the order it was. */
  datatype Done = Done(counted: seq<nat>, paged: seq<nat>, rowed: seq<nat>, queued: seq<nat>)

  const WHOLE := 4

  function More(ds: seq<nat>, offset: nat, yes: bool): seq<nat> {
    if yes then ds + [offset] else ds
  }

  /** The first `stage` of an event's four writes. */
  function Through(d: Done, offset: nat, stage: nat): Done {
    Done(More(d.counted, offset, stage >= 1), More(d.paged, offset, stage >= 2),
         More(d.rowed, offset, stage >= 3), More(d.queued, offset, stage >= 4))
  }

  ghost predicate AllFaithful(log: seq<Event>, d: Done, pos: nat) {
    Faithful(log, d.paged, pos) && Faithful(log, d.rowed, pos)
  }

  lemma ThroughKeeps(log: seq<Event>, d: Done, pos: nat, stage: nat)
    requires AllFaithful(log, d, pos) && pos < |log|
    ensures AllFaithful(log, Through(d, pos, stage), if stage >= WHOLE then pos + 1 else pos)
  {
    NextKeeps(log, d.paged, pos);
    NextKeeps(log, d.rowed, pos);
    StrayKeeps(log, d.paged, pos, pos);
    StrayKeeps(log, d.rowed, pos, pos);
  }

  /** How a run of the consumer ends early: by the injected crash, or in the `nth` event of the run
      with only some of its writes made, as when the job's publish is not confirmed. */
  datatype Death = Injected(after: int) | During(nth: nat, stage: nat)

  // --- the consumer -----------------------------------------------------------------------------

  /** How many of the events processed came after the last commit: the count starts again at every
      full batch. */
  function Since(processed: nat, commitEvery: nat): (n: nat)
    requires commitEvery > 0
    ensures n < commitEvery
  {
    if processed == 0 || Since(processed - 1, commitEvery) + 1 == commitEvery then 0
    else Since(processed - 1, commitEvery) + 1
  }

  /** Which is the remainder the consumer computes. */
  lemma {:induction false} SinceIsRemainder(n: nat, d: nat)
    requires d > 0
    ensures Since(n, d) == n % d && exists q: nat :: n == q * d + Since(n, d)
  {
    if n == 0 {
      assert n == 0 * d + Since(n, d);
    } else {
      SinceIsRemainder(n - 1, d);
      var q: nat :| n - 1 == q * d + Since(n - 1, d);
      if Since(n, d) == 0 {
        assert n == (q + 1) * d + Since(n, d);
        Remainder(n, d, q + 1, 0);
      } else {
        assert n == q * d + Since(n, d);
        Remainder(n, d, q, Since(n, d));
      }
    }
  }

  method Modulo(n: nat, d: nat) returns (r: nat)
    requires d > 0
    ensures r == Since(n, d)
  {
    SinceIsRemainder(n, d);
    r := n % d;
  }

  lemma Remainder(a: nat, d: nat, q: nat, r: nat)
    requires d > 0 && a == q * d + r && r < d
    ensures a % d == r
  {
    var q' := a / d;
    assert a == q' * d + a % d;
    if q' < q {
      assert (q - q') * d == q * d - q' * d;
      AtLeastOne(q - q', d);
    } else if q < q' {
      assert (q' - q) * d == q' * d - q * d;
      AtLeastOne(q' - q, d);
    }
  }

  lemma AtLeastOne(x: nat, d: nat)
    requires x > 0
    ensures x * d >= d
  {
  }

  function PageAt(log: seq<Event>, o: Option<nat>): Option<string>
    requires o.Some? ==> o.value < |log|
  {
    if o.Some? then Some(log[o.value].page) else None
  }

  function Find<K, V>(m: map<K, V>, key: K): Option<V> {
    if key in m then Some(m[key]) else None
  }

  ghost predicate CountsOk(log: seq<Event>, ds: seq<nat>, counts: map<string, nat>, increments: nat) {
    && Valid(log, ds) && increments == |ds|
    && forall page :: (if page in counts then counts[page] else 0) == CountOf(log, ds, page)
  }

  ghost predicate PagesOk(log: seq<Event>, ds: seq<nat>, lastPages: map<string, string>) {
    && Valid(log, ds)
    && forall user :: Find(lastPages, user) == PageAt(log, LastDone(log, ds, |log|, Touching(LastPage(user))))
  }

  ghost predicate RowsOk(log: seq<Event>, ds: seq<nat>, rows: map<Key, string>) {
    && Valid(log, ds)
    && forall key: Key :: key.Row? ==> Find(rows, key) == PageAt(log, LastDone(log, ds, |log|, Touching(key)))
  }

  lemma CountOneMore(log: seq<Event>, ds: seq<nat>, counts: map<string, nat>, increments: nat, offset: nat)
    requires CountsOk(log, ds, counts, increments) && offset < |log|
    ensures var page := log[offset].page;
            CountsOk(log, ds + [offset], counts[page := (if page in counts then counts[page] else 0) + 1],
                     increments + 1)
  {
    assert (ds + [offset])[..|ds|] == ds;
  }

  lemma PageOneMore(log: seq<Event>, ds: seq<nat>, lastPages: map<string, string>, offset: nat)
    requires PagesOk(log, ds, lastPages) && offset < |log|
    ensures PagesOk(log, ds + [offset], lastPages[log[offset].user := log[offset].page])
  {
    assert (ds + [offset])[..|ds|] == ds;
  }

  lemma RowOneMore(log: seq<Event>, ds: seq<nat>, rows: map<Key, string>, offset: nat)
    requires RowsOk(log, ds, rows) && offset < |log|
    ensures var e := log[offset]; RowsOk(log, ds + [offset], rows[Row(e.user, e.time, e.id) := e.page])
  {
    assert (ds + [offset])[..|ds|] == ds;
  }

  /** What is stored under a key. */
  function Kept(lastPages: map<string, string>, rows: map<Key, string>, key: Key): Option<string> {
    match key
    case Row(_, _, _) => Find(rows, key)
    case LastPage(user) => Find(lastPages, user)
  }

  /** Once all of the log has been processed in the end in its own order, every key holds what its last
      event in the log says. */
  lemma AsInLog(log: seq<Event>, d: Done, lastPages: map<string, string>, rows: map<Key, string>)
    requires PagesOk(log, d.paged, lastPages) && RowsOk(log, d.rowed, rows) && AllFaithful(log, d, |log|)
    ensures forall key :: Kept(lastPages, rows, key) == PageAt(log, LastIn(log, |log|, Touching(key)))
  {
    assert InOrder(log, d.paged, |log|) && InOrder(log, d.rowed, |log|);
    forall key
      ensures Kept(lastPages, rows, key) == PageAt(log, LastIn(log, |log|, Touching(key)))
    {
      assert LastDone(log, d.paged, |log|, Touching(key)) == LastDone(log, d.rowed, |log|, Touching(key));
    }
  }

  class Consumer {
    const log: seq<Event>
    var committed: nat
    // Redis: the page counters, how many increments they took, and each user's last page.
    var counts: map<string, nat>
    var increments: nat
    var lastPages: map<string, string>
    // Cassandra: the rows, by primary key.
    var rows: map<Key, string>
    // RabbitMQ: the events a job was published for.
    var jobs: seq<nat>
    ghost var done: Done

    /** The stores are those of the writes made, in the order they were made. */
    ghost predicate StoresOk()
      reads this
    {
      && CountsOk(log, done.counted, counts, increments) && PagesOk(log, done.paged, lastPages)
      && RowsOk(log, done.rowed, rows) && jobs == done.queued
    }

    constructor (log: seq<Event>)
      ensures this.log == log && committed == 0 && done == Done([], [], [], []) && StoresOk()
    {
      this.log := log;
      committed, counts, increments, lastPages, rows, jobs, done := 0, map[], 0, map[], map[], [], Done([], [], [], []);
    }

    /** All four writes before any commit, or only the first `stage` of them: the counter climbs, the
        last page and the row are replaced, the job is published again. */
    method Handle(offset: nat, stage: nat)
      requires StoresOk() && offset < |log|
      modifies this
      ensures StoresOk() && done == Through(old(done), offset, stage) && committed == old(committed)
    {
      if stage >= 1 {
        Count(offset);
      }
      if stage >= 2 {
        Remember(offset);
      }
      if stage >= 3 {
        Insert(offset);
      }
      if stage >= 4 {
        jobs := jobs + [offset];
        done := done.(queued := done.queued + [offset]);
      }
    }

    method Count(offset: nat)
      requires StoresOk() && offset < |log|
      modifies this`counts, this`increments, this`done
      ensures StoresOk() && done == old(done).(counted := old(done).counted + [offset])
    {
      var page := log[offset].page;
      CountOneMore(log, done.counted, counts, increments, offset);
      counts := counts[page := (if page in counts then counts[page] else 0) + 1];
      increments := increments + 1;
      done := done.(counted := done.counted + [offset]);
    }

    method Remember(offset: nat)
      requires StoresOk() && offset < |log|
      modifies this`lastPages, this`done
      ensures StoresOk() && done == old(done).(paged := old(done).paged + [offset])
    {
      PageOneMore(log, done.paged, lastPages, offset);
      lastPages := lastPages[log[offset].user := log[offset].page];
      done := done.(paged := done.paged + [offset]);
    }

    method Insert(offset: nat)
      requires StoresOk() && offset < |log|
      modifies this`rows, this`done
      ensures StoresOk() && done == old(done).(rowed := old(done).rowed + [offset])
    {
      var e := log[offset];
      RowOneMore(log, done.rowed, rows, offset);
      rows := rows[Row(e.user, e.time, e.id) := e.page];
      done := done.(rowed := done.rowed + [offset]);
    }

    /** Consume from the committed offset until the process dies, or until the log is drained. The
        injected crash reports how many events it leaves uncommitted. */
    method Consume(commitEvery: nat, death: Option<Death>) returns (died: bool, again: nat, jobsAgain: nat)
      requires StoresOk() && commitEvery > 0 && committed <= |log| && AllFaithful(log, done, committed)
      modifies this
      ensures died ==> StoresOk() && death.Some? && jobsAgain <= again <= commitEvery
      ensures died ==> Dead(log, old(done), done, old(committed), committed, again, jobsAgain)
      ensures died && death.value.Injected? ==> 1 <= again == jobsAgain
      ensures !died ==> StoresOk() && Progress(log, old(done), done, old(committed), |log| - old(committed))
    {
      died, again, jobsAgain := false, 0, 0;
      var start, processed := committed, 0;
      ghost var before := done;
      while start + processed < |log|
        invariant StoresOk() && Running(log, before, done, start, committed, processed, commitEvery)
      {
        died, again, jobsAgain := Next(start, processed, commitEvery, death, before);
        if died {
          return;
        }
        processed := processed + 1;
      }
    }

    /** The next event: handled, unless the process dies in it or after it, and committed with its
        batch. */
    method Next(start: nat, processed: nat, commitEvery: nat, death: Option<Death>, ghost before: Done)
      returns (died: bool, again: nat, jobsAgain: nat)
      requires commitEvery > 0 && StoresOk() && Running(log, before, done, start, committed, processed, commitEvery)
      requires start + processed < |log|
      modifies this
      ensures StoresOk()
      ensures died ==> death.Some? && jobsAgain <= again <= commitEvery
      ensures died ==> Dead(log, before, done, start, committed, again, jobsAgain)
      ensures died && death.value.Injected? ==> 1 <= again == jobsAgain
      ensures !died ==> Running(log, before, done, start, committed, processed + 1, commitEvery)
    {
      var stage := WHOLE;
      if death.Some? && death.value.During? && death.value.nth == processed {
        stage := death.value.stage;
      }
      OneMoreEvent(log, before, done, start, committed, processed, commitEvery, stage);
      Handle(start + processed, stage);
      var uncommitted := Modulo(processed, commitEvery);
      if stage < WHOLE {
        return true, uncommitted + (if stage >= 1 then 1 else 0), uncommitted;
      }
      if death.Some? && death.value.Injected? && processed + 1 >= death.value.after {
        return true, uncommitted + 1, uncommitted + 1;
      }
      var pending := Modulo(processed + 1, commitEvery);
      if pending == 0 {
        committed := start + processed + 1;
      }
      return false, 0, 0;
    }

    /** Any number of deaths, then a run that drains the log. */
    method Survive(commitEvery: nat, deaths: seq<Death>) returns (again: seq<nat>, jobsAgain: seq<nat>)
      requires commitEvery > 0 && StoresOk() && committed == 0 && done == Done([], [], [], [])
      modifies this
      ensures StoresOk() && AllFaithful(log, done, |log|)
      ensures Reported(deaths, again, jobsAgain, commitEvery)
      ensures increments == |log| + Sum(again) && |jobs| == |log| + Sum(jobsAgain)
      ensures forall key :: Kept(lastPages, rows, key) == PageAt(log, LastIn(log, |log|, Touching(key)))
    {
      again, jobsAgain := [], [];
      for i := 0 to |deaths|
        invariant StoresOk() && Standing(log, done, committed, again, jobsAgain)
        invariant |again| == i && Reported(deaths, again, jobsAgain, commitEvery)
      {
        ghost var before, start := done, committed;
        var died, n, m := Consume(commitEvery, Some(deaths[i]));
        if !died {
          Drained(log, before, done, start, again, jobsAgain);
          AsInLog(log, done, lastPages, rows);
          return;
        }
        OneMoreDeath(log, before, done, start, committed, again, jobsAgain, n, m);
        again, jobsAgain := again + [n], jobsAgain + [m];
      }
      ghost var before, start := done, committed;
      var died, _, _ := Consume(commitEvery, None);
      Drained(log, before, done, start, again, jobsAgain);
      AsInLog(log, done, lastPages, rows);
    }
  }

  /** A run begun at `start` has processed so many events whole. */
  ghost predicate Progress(log: seq<Event>, before: Done, d: Done, start: nat, processed: nat) {
    start + processed <= |log| && AllFaithful(log, d, start + processed) && Made(before, d, processed, processed)
  }

  /** With the last full batch committed. */
  ghost predicate Running(log: seq<Event>, before: Done, d: Done, start: nat, committed: nat, processed: nat,
                          commitEvery: nat)
    requires commitEvery > 0
  {
    && Progress(log, before, d, start, processed)
    && committed == start + processed - Since(processed, commitEvery) && start <= committed
  }

  /** A run that died: everything up to the commit stands, and `again` increments and `jobsAgain`
      jobs past it will be made again. */
  ghost predicate Dead(log: seq<Event>, before: Done, d: Done, start: nat, committed: nat, again: nat, jobsAgain: nat) {
    && start <= committed <= |log| && AllFaithful(log, d, committed)
    && Made(before, d, committed - start + again, committed - start + jobsAgain)
  }

  lemma OneMoreEvent(log: seq<Event>, before: Done, d: Done, start: nat, committed: nat, processed: nat,
                     commitEvery: nat, stage: nat)
    requires commitEvery > 0 && Running(log, before, d, start, committed, processed, commitEvery)
    requires start + processed < |log|
    ensures var d', since := Through(d, start + processed, stage), Since(processed, commitEvery);
            if stage < WHOLE then Dead(log, before, d', start, committed, since + (if stage >= 1 then 1 else 0), since)
            else
              && Dead(log, before, d', start, committed, since + 1, since + 1)
              && Running(log, before, d', start,
                         if Since(processed + 1, commitEvery) == 0 then start + processed + 1 else committed,
                         processed + 1, commitEvery)
  {
    var d', pos := Through(d, start + processed, stage), start + processed;
    ProgressStep(log, before, d, start, processed, stage);
    StaysFaithful(log, d', if stage < WHOLE then pos else pos + 1, committed);
  }

  lemma ProgressStep(log: seq<Event>, before: Done, d: Done, start: nat, processed: nat, stage: nat)
    requires Progress(log, before, d, start, processed) && start + processed < |log|
    ensures var d' := Through(d, start + processed, stage);
            if stage >= WHOLE then Progress(log, before, d', start, processed + 1)
            else
              && AllFaithful(log, d', start + processed)
              && Made(before, d', processed + (if stage >= 1 then 1 else 0), processed)
  {
    ThroughKeeps(log, d, start + processed, stage);
  }

  /** So many increments and so many jobs more. */
  ghost predicate Made(before: Done, after: Done, increments: int, jobs: int) {
    |after.counted| == |before.counted| + increments && |after.queued| == |before.queued| + jobs
  }

  /** What each death leaves to be done again: never more than a batch, and at least one event for an
      injected crash, which reports it. */
  ghost predicate Reported(deaths: seq<Death>, again: seq<nat>, jobsAgain: seq<nat>, commitEvery: nat) {
    && |jobsAgain| == |again| <= |deaths|
    && forall i :: 0 <= i < |again| ==>
         jobsAgain[i] <= again[i] <= commitEvery && (deaths[i].Injected? ==> 1 <= again[i] == jobsAgain[i])
  }

  /** After so many deaths: everything committed stands, and all past it is accounted for. */
  ghost predicate Standing(log: seq<Event>, d: Done, committed: nat, again: seq<nat>, jobsAgain: seq<nat>) {
    && committed <= |log| && AllFaithful(log, d, committed)
    && |d.counted| == committed + Sum(again) && |d.queued| == committed + Sum(jobsAgain)
  }

  lemma OneMoreDeath(log: seq<Event>, before: Done, d: Done, start: nat, committed: nat, again: seq<nat>,
                     jobsAgain: seq<nat>, n: nat, m: nat)
    requires Standing(log, before, start, again, jobsAgain) && start <= committed <= |log|
    requires AllFaithful(log, d, committed)
    requires Made(before, d, committed - start + n, committed - start + m)
    ensures Standing(log, d, committed, again + [n], jobsAgain + [m])
  {
    assert (again + [n])[..|again|] == again && (jobsAgain + [m])[..|jobsAgain|] == jobsAgain;
  }

  lemma Drained(log: seq<Event>, before: Done, d: Done, start: nat, again: seq<nat>, jobsAgain: seq<nat>)
    requires Standing(log, before, start, again, jobsAgain) && Progress(log, before, d, start, |log| - start)
    ensures AllFaithful(log, d, |log|) && |d.counted| == |log| + Sum(again) && |d.queued| == |log| + Sum(jobsAgain)
  {
  }

  lemma StaysFaithful(log: seq<Event>, d: Done, pos: nat, earlier: nat)
    requires AllFaithful(log, d, pos) && earlier <= pos
    ensures AllFaithful(log, d, earlier)
  {
  }

  function Upto(n: nat): seq<nat> {
    if n == 0 then [] else Upto(n - 1) + [n - 1]
  }

  /** A run without crashes processes each event once, in order. */
  lemma {:induction false} StraightPass(log: seq<Event>, n: nat)
    requires n <= |log|
    ensures Faithful(log, Upto(n), n) && |Upto(n)| == n
  {
    if n > 0 {
      StraightPass(log, n - 1);
      NextKeeps(log, Upto(n - 1), n - 1);
    }
  }

  /** Any drained run, however often it crashed, leaves each Cassandra row and each user's last
      page as one pass without crashes would. */
  lemma ReplayChangesOnlyCounts(log: seq<Event>, ds: seq<nat>, key: Key)
    requires Faithful(log, ds, |log|)
    ensures Valid(log, Upto(|log|))
    ensures LastDone(log, ds, |log|, Touching(key)) == LastDone(log, Upto(|log|), |log|, Touching(key))
  {
    StraightPass(log, |log|);
    assert InOrder(log, ds, |log|) && InOrder(log, Upto(|log|), |log|);
  }
}
