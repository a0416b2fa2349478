/** The readers: src/pipeline/windows.py, `latest`, straight from the topic, and
    src/pipeline/api.py, `read_windows`, from Redis through the index. */
module WindowsReaders {
  import opened Basics
  import opened Windows
  import opened WindowsDelivery
  import Ordering

  /** `chosen` is the newest of `all`, at most `limit` of them: whatever is left out is older
      than everything chosen, and the limit is why. */
  ghost predicate NewestOf(all: iset<int>, chosen: seq<int>, limit: nat) {
    && |chosen| <= limit
    && (forall s :: s in chosen ==> s in all)
    && (forall i, j :: 0 <= i < j < |chosen| ==> chosen[i] != chosen[j])
    && (forall s :: s in all && s !in chosen ==> |chosen| == limit && forall x :: x in chosen ==> s < x)
  }

  ghost predicate Descending(s: seq<int>) {
    forall i, j :: 0 <= i < j < |s| ==> s[i] > s[j]
  }

  // --- latest --------------------------------------------------------------------------------

  /** The newest generation per window, then the last result per page within it, for the most
      recent windows. `sorted(...)[-0:]` is the whole list, so zero windows means all of them. */
  method Latest(records: seq<Result>, windows: nat)
    returns (rows: seq<Result>, starts: seq<int>, shown: map<(int, string), Result>)
    ensures windows > 0 ==> NewestOf((iset s | HasResult(records, s)), starts, windows)
    ensures windows == 0 ==> forall s :: s in starts <==> HasResult(records, s)
    ensures Ascending(starts)
    ensures forall s, p :: (s, p) in shown <==> s in starts && Last(records, s, p, Newest(records, s)).Some?
    ensures forall s, p :: (s, p) in shown ==> Last(records, s, p, Newest(records, s)) == Some(shown[(s, p)])
    ensures SortedRows(rows) && forall r :: r in rows <==> Shows(shown, r)
  {
    var newest := NewestPerWindow(records);
    var byKey := LastPerPage(records, newest);
    var keys := set k | k in byKey :: k.0;
    KeysAreStarts(records, byKey, keys);
    starts := Tail(keys, windows);
    TailIsNewest(records, keys, starts, windows);
    shown := map k | k in byKey && k.0 in starts :: byKey[k];
    ShownIsFiled(records, byKey, starts, shown);
    rows := Rows(starts, shown);
  }

  /** The last result per page of each window's newest generation. */
  ghost predicate LastPerKey(records: seq<Result>, byKey: map<(int, string), Result>) {
    forall s, p :: Last(records, s, p, Newest(records, s)) == if (s, p) in byKey then Some(byKey[(s, p)]) else None
  }

  /** Every window with a result has a page in its newest generation. */
  lemma KeysAreStarts(records: seq<Result>, byKey: map<(int, string), Result>, keys: set<int>)
    requires LastPerKey(records, byKey) && keys == set k | k in byKey :: k.0
    ensures forall s :: s in keys <==> HasResult(records, s)
  {
    forall s
      ensures s in keys <==> HasResult(records, s)
    {
      if HasResult(records, s) {
        var g := Newest(records, s);
        var n :| n in records && n.start == s && n.generation == g;
        assert Matches(n, s, n.page, g);
        assert (s, n.page) in byKey && (s, n.page).0 == s;
      } else if s in keys {
        var k :| k in byKey && k.0 == s;
        assert Last(records, k.0, k.1, Newest(records, k.0)).Some?;
      }
    }
  }

  ghost predicate HasResult(records: seq<Result>, s: int) {
    exists r :: r in records && r.start == s
  }

  lemma TailIsNewest(records: seq<Result>, keys: set<int>, starts: seq<int>, windows: nat)
    requires forall s :: s in keys <==> HasResult(records, s)
    requires Ascending(starts) && forall s :: s in starts ==> s in keys
    requires windows > 0 ==> |starts| <= windows
    requires forall s :: s in keys && s !in starts ==> 0 < windows == |starts| && forall x :: x in starts ==> s < x
    ensures windows > 0 ==> NewestOf((iset s | HasResult(records, s)), starts, windows)
    ensures windows == 0 ==> forall s :: s in starts <==> HasResult(records, s)
  {
  }

  lemma ShownIsFiled(records: seq<Result>, byKey: map<(int, string), Result>, starts: seq<int>,
                     shown: map<(int, string), Result>)
    requires LastPerKey(records, byKey) && shown == map k | k in byKey && k.0 in starts :: byKey[k]
    ensures Filed(shown)
    ensures forall s, p :: (s, p) in shown <==> s in starts && Last(records, s, p, Newest(records, s)).Some?
    ensures forall s, p :: (s, p) in shown ==> Last(records, s, p, Newest(records, s)) == Some(shown[(s, p)])
  {
    forall s, p | (s, p) in shown
      ensures Last(records, s, p, Newest(records, s)) == Some(shown[(s, p)])
      ensures shown[(s, p)].start == s && shown[(s, p)].page == p
    {
      assert Matches(byKey[(s, p)], s, p, Newest(records, s));
    }
  }

  /** By window, then by page. */
  ghost predicate SortedRows(rows: seq<Result>) {
    forall i, j :: 0 <= i < j < |rows| ==>
      rows[i].start < rows[j].start || (rows[i].start == rows[j].start && Ordering.Before(rows[i].page, rows[j].page))
  }

  predicate Shows(shown: map<(int, string), Result>, r: Result) {
    (r.start, r.page) in shown && shown[(r.start, r.page)] == r
  }

  /** Each result is filed under its own window and page. */
  ghost predicate Filed(shown: map<(int, string), Result>) {
    forall s, p :: (s, p) in shown ==> shown[(s, p)].start == s && shown[(s, p)].page == p
  }

  /** `sorted(...)` of what is shown. */
  method Rows(starts: seq<int>, shown: map<(int, string), Result>) returns (rows: seq<Result>)
    requires Ascending(starts) && Filed(shown) && forall s, p :: (s, p) in shown ==> s in starts
    ensures SortedRows(rows) && forall r :: r in rows <==> Shows(shown, r)
  {
    rows := [];
    for i := 0 to |starts|
      invariant SortedRows(rows)
      invariant forall r :: r in rows <==> Shows(shown, r) && r.start in starts[..i]
    {
      var more := RowsOf(starts[i], shown);
      assert forall r :: r in rows ==> r.start < starts[i];
      assert forall k :: 0 <= k < |rows| ==> rows[k] in rows;
      assert forall k :: 0 <= k < |more| ==> more[k] in more;
      rows := rows + more;
      assert starts[..i + 1] == starts[..i] + [starts[i]];
    }
    assert starts[..|starts|] == starts;
  }

  /** One window's rows. */
  method RowsOf(s: int, shown: map<(int, string), Result>) returns (rows: seq<Result>)
    requires Filed(shown)
    ensures SortedRows(rows) && forall r :: r in rows <==> Shows(shown, r) && r.start == s
  {
    var pages := Ordering.Sorted(set k | k in shown && k.0 == s :: k.1);
    rows := [];
    for i := 0 to |pages|
      invariant |rows| == i
      invariant forall k :: 0 <= k < i ==> Shows(shown, rows[k]) && rows[k].start == s && rows[k].page == pages[k]
    {
      assert pages[i] in pages;
      rows := rows + [shown[(s, pages[i])]];
    }
    forall r | Shows(shown, r) && r.start == s
      ensures r in rows
    {
      assert (s, r.page) in shown && (s, r.page).1 in pages;
      var k :| 0 <= k < |pages| && pages[k] == r.page;
      assert rows[k] == r;
    }
  }

  /** `sorted(keys)[-windows:]` */
  method Tail(keys: set<int>, windows: nat) returns (starts: seq<int>)
    ensures Ascending(starts) && forall s :: s in starts ==> s in keys
    ensures windows > 0 ==> |starts| <= windows
    ensures forall s :: s in keys && s !in starts ==> 0 < windows == |starts| && forall x :: x in starts ==> s < x
  {
    var sorted := SortedKeys(keys);
    var from := if windows == 0 || |sorted| <= windows then 0 else |sorted| - windows;
    starts := sorted[from..];
    assert sorted == sorted[..from] + starts;
    forall s | s in keys && s !in starts
      ensures from > 0 && forall x :: x in starts ==> s < x
    {
      assert s in sorted;
      BelowTail(sorted, from, s);
    }
  }

  lemma BelowTail(sorted: seq<int>, from: nat, s: int)
    requires Ascending(sorted) && from <= |sorted| && s in sorted[..from]
    ensures from > 0 && forall x :: x in sorted[from..] ==> s < x
  {
    var i :| 0 <= i < from && sorted[i] == s;
    forall x | x in sorted[from..]
      ensures s < x
    {
      var k :| 0 <= k < |sorted| - from && sorted[from..][k] == x;
      assert sorted[from + k] == x;
    }
  }

  method NewestPerWindow(records: seq<Result>) returns (newest: map<int, int>)
    ensures forall s :: s in newest <==> Newest(records, s) >= 0
    ensures forall s :: s in newest ==> newest[s] == Newest(records, s)
  {
    newest := map[];
    for i := 0 to |records|
      invariant NewestSoFar(records, i, newest)
    {
      var r := records[i];
      var known := if r.start in newest then newest[r.start] else 0;
      NewestOneMore(records, i, newest, known);
      newest := newest[r.start := if known < r.generation then r.generation else known];
    }
    assert records[..|records|] == records;
  }

  ghost predicate NewestSoFar(records: seq<Result>, i: int, newest: map<int, int>) {
    && 0 <= i <= |records|
    && (forall s :: s in newest <==> Newest(records[..i], s) >= 0)
    && (forall s :: s in newest ==> newest[s] == Newest(records[..i], s))
  }

  lemma NewestOneMore(records: seq<Result>, i: nat, newest: map<int, int>, known: int)
    requires i < |records| && NewestSoFar(records, i, newest)
    requires known == if records[i].start in newest then newest[records[i].start] else 0
    ensures var r := records[i];
            NewestSoFar(records, i + 1, newest[r.start := if known < r.generation then r.generation else known])
  {
    assert records[..i + 1][..i] == records[..i];
  }

  method LastPerPage(records: seq<Result>, newest: map<int, int>) returns (byKey: map<(int, string), Result>)
    requires forall s :: s in newest <==> Newest(records, s) >= 0
    requires forall s :: s in newest ==> newest[s] == Newest(records, s)
    ensures LastPerKey(records, byKey)
  {
    byKey := map[];
    for i := 0 to |records|
      invariant LastSoFar(records, i, byKey)
    {
      var r := records[i];
      assert r in records;
      LastOneMore(records, i, byKey);
      if r.generation == newest[r.start] {
        byKey := byKey[(r.start, r.page) := r];
      }
    }
    assert records[..|records|] == records;
    forall s, p
      ensures Last(records, s, p, Newest(records, s)) == if (s, p) in byKey then Some(byKey[(s, p)]) else None
    {
      assert LastFor(records, |records|, byKey, s, p);
    }
  }

  ghost predicate LastSoFar(records: seq<Result>, i: int, byKey: map<(int, string), Result>) {
    0 <= i <= |records| && forall s, p :: LastFor(records, i, byKey, s, p)
  }

  ghost predicate LastFor(records: seq<Result>, i: nat, byKey: map<(int, string), Result>, s: int, p: string)
    requires i <= |records|
  {
    Last(records[..i], s, p, Newest(records, s)) == if (s, p) in byKey then Some(byKey[(s, p)]) else None
  }

  /** What the next record makes of the results kept. */
  function Kept(records: seq<Result>, i: nat, byKey: map<(int, string), Result>): map<(int, string), Result>
    requires i < |records|
  {
    var r := records[i];
    if r.generation == Newest(records, r.start) then byKey[(r.start, r.page) := r] else byKey
  }

  lemma LastOneMore(records: seq<Result>, i: nat, byKey: map<(int, string), Result>)
    requires i < |records| && LastSoFar(records, i, byKey)
    ensures LastSoFar(records, i + 1, Kept(records, i, byKey))
  {
    var j, byKey' := i + 1, Kept(records, i, byKey);
    forall s, p
      ensures LastFor(records, j, byKey', s, p)
    {
      LastForOneMore(records, i, byKey, s, p);
    }
  }

  lemma LastForOneMore(records: seq<Result>, i: nat, byKey: map<(int, string), Result>, s: int, p: string)
    requires i < |records| && LastFor(records, i, byKey, s, p)
    ensures LastFor(records, i + 1, Kept(records, i, byKey), s, p)
  {
    assert records[..i + 1][..i] == records[..i];
  }

  // --- read_windows ----------------------------------------------------------------------------

  datatype View = View(start: int, end: int, generation: nat, counts: map<string, nat>)

  /** What Redis answers for these starts at server time `t`: a window whose keys have gone is skipped. */
  function Views(st: Store, t: int, starts: seq<int>): (views: seq<View>)
  {
    if starts == [] then [] else ViewOf(st, t, starts[0]) + Views(st, t, starts[1..])
  }

  function ViewOf(st: Store, t: int, s: int): seq<View> {
    if HasHash(st, t, s) && HasMeta(st, t, s) && st.hash[s].pages != map[]
    then [View(s, st.meta[s].end, st.meta[s].generation, st.hash[s].pages)] else []
  }

  ghost predicate ViewedSoFar(st: Store, t: int, starts: seq<int>, i: int, windows: seq<View>) {
    0 <= i <= |starts| && windows + Views(st, t, starts[i..]) == Views(st, t, starts)
  }

  lemma ViewsOneMore(st: Store, t: int, starts: seq<int>, i: nat, windows: seq<View>)
    requires i < |starts| && ViewedSoFar(st, t, starts, i, windows)
    ensures ViewedSoFar(st, t, starts, i + 1, windows + ViewOf(st, t, starts[i]))
    ensures ViewOf(st, t, starts[i]) == [] ==> ViewedSoFar(st, t, starts, i + 1, windows)
  {
    assert starts[i..][1..] == starts[i + 1..];
    assert windows + Views(st, t, starts[i..]) == (windows + ViewOf(st, t, starts[i])) + Views(st, t, starts[i + 1..]);
    assert windows + [] == windows;
  }

  /** ZREVRANGEBYSCORE: the members above `cutoff`, highest first, at most `limit`. */
  method RevRange(index: set<int>, cutoff: int, limit: nat) returns (starts: seq<int>)
    ensures Descending(starts) && NewestOf((iset s | s in index && s > cutoff), starts, limit)
  {
    var sorted := SortedKeys(set s | s in index && s > cutoff);
    starts := [];
    var i := |sorted|;
    while 0 < i && |starts| < limit
      invariant 0 <= i <= |sorted| && |starts| == |sorted| - i && |starts| <= limit
      invariant forall k :: 0 <= k < |starts| ==> starts[k] == sorted[|sorted| - 1 - k]
    {
      i := i - 1;
      starts := starts + [sorted[i]];
    }
    forall s | s in index && s > cutoff && s !in starts
      ensures |starts| == limit && forall x :: x in starts ==> s < x
    {
      assert s in sorted;
      var k :| 0 <= k < |sorted| && sorted[k] == s;
      forall m | i <= m < |sorted|
        ensures sorted[m] in starts
      {
        assert starts[|sorted| - 1 - m] == sorted[m];
      }
    }
  }

  /** Two round trips: the index as it is in `st`, then in one transaction every window it named as
      it is in `later`, at server time `t`. Scripts may run in between. */
  method ReadWindows(st: Store, later: Store, limit: nat, now: int, t: int, c: Config)
    returns (windows: seq<View>, starts: seq<int>)
    ensures Descending(starts) && NewestOf((iset s | s in st.index && Live(c, now, s)), starts, limit)
    ensures windows == Views(later, t, starts)
  {
    var cutoff := now - c.retention - c.length;
    var found := RevRange(st.index, cutoff, limit);
    starts := found;
    assert (iset s | s in st.index && s > cutoff) == (iset s | s in st.index && Live(c, now, s));
    windows := [];
    for i := 0 to |found|
      invariant ViewedSoFar(later, t, found, i, windows)
    {
      var s := found[i];
      ViewsOneMore(later, t, found, i, windows);
      if HasHash(later, t, s) && HasMeta(later, t, s) && later.hash[s].pages != map[] {
        windows := windows + [View(s, later.meta[s].end, later.meta[s].generation, later.hash[s].pages)];
      }
    }
  }

  /** What `latest` shows of a window, read from the topic, is what Redis holds of it once the
      writer has drained the topic, through whatever failures and replays. */
  lemma LatestIsWhatRedisHolds(topic: Topic, ds: seq<Delivery>, pos: seq<nat>, read: seq<Delivery>, end: seq<nat>,
                               c: Config, t: int, s: int, shown: map<(int, string), Result>)
    requires Keyed(topic)
    requires Faithful(topic, ds, pos) && Drained(topic, pos) && Faithful(topic, read, end) && Drained(topic, end)
    requires WellTimed(Execs(topic, ds), c) && Live(c, t, s) && forall e :: e in Execs(topic, ds) ==> e.t <= t
    requires var records := Results(Execs(topic, read));
             && Newest(records, s) >= 0
             && (forall p :: (s, p) in shown <==> Last(records, s, p, Newest(records, s)).Some?)
             && forall p :: (s, p) in shown ==> Last(records, s, p, Newest(records, s)) == Some(shown[(s, p)])
    ensures var st := StoreAfter(Execs(topic, ds), c.retention);
            && s in st.hash && s in st.meta
            && (forall p :: p in st.hash[s].pages <==> (s, p) in shown)
            && forall p :: p in st.hash[s].pages ==>
                 st.hash[s].pages[p] == shown[(s, p)].views && st.meta[s].generation == shown[(s, p)].generation
  {
    DeliveryConverges(topic, ds, pos, read, end, c, t, s);
    var st, records := StoreAfter(Execs(topic, ds), c.retention), Results(Execs(topic, read));
    forall p
      ensures p in st.hash[s].pages <==> (s, p) in shown
      ensures p in st.hash[s].pages ==>
                st.hash[s].pages[p] == shown[(s, p)].views && st.meta[s].generation == shown[(s, p)].generation
    {
      assert Get(st.hash[s].pages, p) == LastViews(records, s, p, Newest(records, s));
    }
  }

  // --- what the two round trips add up to ---------------------------------------------------------

  lemma PresentHasPages(st: Store, rs: seq<Result>, c: Config, s: int)
    requires Windows.Holds(st, rs, c, s) && Newest(rs, s) >= 0
    ensures st.hash[s].pages != map[]
  {
    var g := Newest(rs, s);
    var r :| r in rs && r.start == s && r.generation == g;
    assert Matches(r, s, r.page, g);
    assert Get(st.hash[s].pages, r.page).Some?;
  }

  /** The view says what the rule says of these results: the newest generation, and its last count
      per page, both of one moment. */
  ghost predicate ViewExact(v: View, rs: seq<Result>, c: Config, s: int) {
    && v.start == s && v.end == s + c.length && v.generation == Newest(rs, s)
    && forall page :: Get(v.counts, page) == LastViews(rs, s, page, v.generation)
  }

  /** One exact view for each start still live at `t`, in the same order, and none for the others. */
  ghost predicate ViewsExact(views: seq<View>, starts: seq<int>, rs: seq<Result>, c: Config, t: int) {
    if starts == [] then views == []
    else if Live(c, t, starts[0]) then
      views != [] && ViewExact(views[0], rs, c, starts[0]) && ViewsExact(views[1..], starts[1..], rs, c, t)
    else ViewsExact(views, starts[1..], rs, c, t)
  }

  /** A window the index named has a result, and still has one later. */
  lemma ListedStays(execs: seq<Exec>, c: Config, t: int, i: nat, s: int)
    requires WellTimed(execs, c) && i <= |execs| && (forall e :: e in execs ==> e.t <= t) && Live(c, t, s)
    requires s in StoreAfter(execs[..i], c.retention).index
    ensures Windows.Holds(StoreAfter(execs, c.retention), Results(execs), c, s) && Newest(Results(execs), s) >= 0
  {
    HeldAt(execs, c, t, i, s);
    NewestOfPrefix(execs, i, s);
    HeldAt(execs, c, t, |execs|, s);
    assert execs[..|execs|] == execs;
  }

  lemma HeldView(st: Store, rs: seq<Result>, c: Config, t: int, s: int)
    requires Windows.Holds(st, rs, c, s) && Newest(rs, s) >= 0 && Live(c, t, s)
    ensures |ViewOf(st, t, s)| == 1 && ViewExact(ViewOf(st, t, s)[0], rs, c, s)
  {
    PresentHasPages(st, rs, c, s);
  }

  lemma OneViewExact(execs: seq<Exec>, c: Config, t: int, i: nat, s: int)
    requires WellTimed(execs, c) && i <= |execs| && (forall e :: e in execs ==> e.t <= t)
    requires s in StoreAfter(execs[..i], c.retention).index
    ensures var views := ViewOf(StoreAfter(execs, c.retention), t, s);
            if Live(c, t, s) then |views| == 1 && ViewExact(views[0], Results(execs), c, s) else views == []
  {
    if Live(c, t, s) {
      ListedStays(execs, c, t, i, s);
      HeldView(StoreAfter(execs, c.retention), Results(execs), c, t, s);
    } else {
      ExpiredStaysGone(execs, c, s, t);
    }
  }

  lemma {:induction false} AllViewsExact(execs: seq<Exec>, c: Config, t: int, i: nat, starts: seq<int>)
    requires WellTimed(execs, c) && i <= |execs| && (forall e :: e in execs ==> e.t <= t)
    requires forall s :: s in starts ==> s in StoreAfter(execs[..i], c.retention).index
    ensures ViewsExact(Views(StoreAfter(execs, c.retention), t, starts), starts, Results(execs), c, t)
    decreases |starts|
  {
    if starts != [] {
      OneViewExact(execs, c, t, i, starts[0]);
      assert forall s :: s in starts[1..] ==> s in starts;
      AllViewsExact(execs, c, t, i, starts[1..]);
      var one, rest := ViewOf(StoreAfter(execs, c.retention), t, starts[0]),
        Views(StoreAfter(execs, c.retention), t, starts[1..]);
      assert Live(c, t, starts[0]) ==> (one + rest)[1..] == rest;
      assert !Live(c, t, starts[0]) ==> one + rest == rest;
    }
  }

  /** The index is read after the first `i` scripts, by a reader whose clock shows `now`, and the
      windows after all of them, at server time `t`: every start read is answered, newest first,
      exactly as the rule says of the whole run, or skipped if and only if it has expired; and no
      window of the first `i` scripts that both clocks call live is left out, unless the limit is
      full of newer ones. */
  lemma ReaderIsExact(execs: seq<Exec>, i: nat, c: Config, limit: nat, now: int, t: int, starts: seq<int>)
    requires WellTimed(execs, c) && i <= |execs| && forall e :: e in execs ==> e.t <= t
    requires NewestOf((iset s | s in StoreAfter(execs[..i], c.retention).index && Live(c, now, s)), starts, limit)
    ensures ViewsExact(Views(StoreAfter(execs, c.retention), t, starts), starts, Results(execs), c, t)
    ensures forall s :: Live(c, now, s) && Live(c, t, s) && Newest(Results(execs[..i]), s) >= 0 && s !in starts ==>
              |starts| == limit && forall x :: x in starts ==> s < x
  {
    var st := StoreAfter(execs[..i], c.retention);
    AllViewsExact(execs, c, t, i, starts);
    forall s | Live(c, now, s) && Live(c, t, s) && Newest(Results(execs[..i]), s) >= 0 && s !in starts
      ensures |starts| == limit && forall x :: x in starts ==> s < x
    {
      HeldAt(execs, c, t, i, s);
      assert s in st.index;
    }
  }

  /** With no script and no time in between, nothing is skipped. */
  lemma ViewsOfLive(views: seq<View>, starts: seq<int>, rs: seq<Result>, c: Config, t: int)
    requires ViewsExact(views, starts, rs, c, t) && forall s :: s in starts ==> Live(c, t, s)
    ensures |views| == |starts| && forall k :: 0 <= k < |starts| ==> ViewExact(views[k], rs, c, starts[k])
  {
    if starts != [] {
      ViewsOfLive(views[1..], starts[1..], rs, c, t);
    }
  }
}
