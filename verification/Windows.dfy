/** Windowed counts in Redis: the script of src/pipeline/windows_writer.py, and the delivery of
    its topic. */
module Windows {
  import opened Basics

  /** One parsed result. `parse` accepts nothing negative and no window that ends before it starts. */
  datatype Result = Result(start: int, end: int, page: string, views: nat, generation: nat)

  datatype Hash = Hash(pages: map<string, nat>, expireAt: int)

  datatype Meta = Meta(generation: nat, end: int, expireAt: int)

  /** Redis: each window's counts, its meta beside them, and the index scored by start. A key
      is gone once the server's clock reaches its expiry. */
  datatype Store = Store(hash: map<int, Hash>, meta: map<int, Meta>, index: set<int>)

  const EMPTY := Store(map[], map[], {})

  datatype Outcome = Written | Refused | Expired

  /** The one length every window shares, and how long a window is kept past its end. */
  datatype Config = Config(length: int, retention: int)

  function ExpireAt(r: Result, retention: int): int {
    r.end + retention
  }

  predicate HasHash(st: Store, t: int, start: int) {
    start in st.hash && t < st.hash[start].expireAt
  }

  predicate HasMeta(st: Store, t: int, start: int) {
    start in st.meta && t < st.meta[start].expireAt
  }

  /** The generation the window has accepted, as the script sees it at server time `t`. */
  function Accepted(st: Store, t: int, start: int): int {
    if HasMeta(st, t, start) then st.meta[start].generation else -1
  }

  function OutcomeOf(st: Store, r: Result, retention: int, now: int, t: int): Outcome {
    if ExpireAt(r, retention) <= now then Expired
    else if r.generation < Accepted(st, t, r.start) then Refused
    else Written
  }

  /** Which starts a write trims from the index. */
  predicate Trimmed(r: Result, retention: int, now: int, start: int) {
    start <= now - (ExpireAt(r, retention) - r.start)
  }

  /** What the script leaves behind: refuse older, replace on newer, update on the same. */
  function After(st: Store, r: Result, retention: int, now: int, t: int): Store {
    if OutcomeOf(st, r, retention, now, t) != Written then st
    else
      var newer := r.generation > Accepted(st, t, r.start);
      var kept := if !newer && HasHash(st, t, r.start) then st.hash[r.start].pages else map[];
      var expireAt := ExpireAt(r, retention);
      Store(st.hash[r.start := Hash(kept[r.page := r.views], expireAt)],
            st.meta[r.start := Meta(r.generation, if newer then r.end else st.meta[r.start].end, expireAt)],
            set s | s in st.index + {r.start} && !Trimmed(r, retention, now, s))
  }

  /** Redis as the script mutates it, key by key. */
  class Redis {
    var hash: map<int, Hash>
    var meta: map<int, Meta>
    var index: set<int>

    constructor ()
      ensures View() == EMPTY
    {
      hash, meta, index := map[], map[], {};
    }

    ghost function View(): Store
      reads this
    {
      Store(hash, meta, index)
    }

    /** SCRIPT, with the writer's `now` and the server's own clock `t`. */
    method Script(r: Result, retention: int, now: int, t: int) returns (outcome: Outcome)
      modifies this
      ensures outcome == OutcomeOf(old(View()), r, retention, now, t)
      ensures View() == After(old(View()), r, retention, now, t)
    {
      var expireAt := r.end + retention;
      if expireAt <= now {
        return Expired;
      }
      var stored: int := -1;
      if r.start in meta && t < meta[r.start].expireAt {
        stored := meta[r.start].generation;
      }
      if r.generation < stored {
        return Refused;
      }
      var end := r.end;
      if r.generation > stored {
        hash := hash - {r.start};
      } else {
        end := meta[r.start].end;
      }
      var pages := map[];
      if r.start in hash && t < hash[r.start].expireAt {
        pages := hash[r.start].pages;
      }
      hash := hash[r.start := Hash(pages[r.page := r.views], expireAt)];
      meta := meta[r.start := Meta(r.generation, end, expireAt)];
      index := index + {r.start};
      index := set s | s in index && !(s <= now - (expireAt - r.start));
      return Written;
    }
  }

  // --- every run of scripts -------------------------------------------------------------

  /** One script executed: the writer's clock when its batch began, and the server's. */
  datatype Exec = Exec(result: Result, now: int, t: int)

  function StoreAfter(execs: seq<Exec>, retention: int): Store {
    if execs == [] then EMPTY
    else
      var e := execs[|execs| - 1];
      After(StoreAfter(execs[..|execs| - 1], retention), e.result, retention, e.now, e.t)
  }

  /** One nondecreasing server clock, never behind the writer's, and one window length. */
  ghost predicate WellTimed(execs: seq<Exec>, c: Config) {
    && (forall i :: 0 <= i < |execs| ==>
        execs[i].now <= execs[i].t && execs[i].result.end == execs[i].result.start + c.length)
    && (forall i, j :: 0 <= i < j < |execs| ==> execs[i].t <= execs[j].t)
  }

  predicate Live(c: Config, t: int, start: int) {
    t < start + c.length + c.retention
  }

  function Results(execs: seq<Exec>): (rs: seq<Result>)
    ensures |rs| == |execs| && forall i :: 0 <= i < |execs| ==> rs[i] == execs[i].result
  {
    seq(|execs|, i requires 0 <= i < |execs| => execs[i].result)
  }

  /** The newest generation among the results for a window, or -1. */
  function Newest(rs: seq<Result>, start: int): (g: int)
    ensures g >= -1
    ensures forall r :: r in rs && r.start == start ==> r.generation <= g
    ensures g >= 0 ==> exists r :: r in rs && r.start == start && r.generation == g
  {
    if rs == [] then -1
    else
      var n := |rs| - 1;
      var r, g := rs[n], Newest(rs[..n], start);
      assert rs == rs[..n] + [r];
      if r.start == start && r.generation > g then r.generation else g
  }

  predicate Matches(r: Result, start: int, page: string, g: int) {
    r.start == start && r.page == page && r.generation == g
  }

  /** The last result for a page of a window in one generation. */
  function Last(rs: seq<Result>, start: int, page: string, g: int): (v: Option<Result>)
    ensures v.Some? <==> exists r :: r in rs && Matches(r, start, page, g)
    ensures v.Some? ==> v.value in rs && Matches(v.value, start, page, g)
  {
    if rs == [] then None
    else
      var n := |rs| - 1;
      assert rs == rs[..n] + [rs[n]];
      if Matches(rs[n], start, page, g) then Some(rs[n]) else Last(rs[..n], start, page, g)
  }

  function LastViews(rs: seq<Result>, start: int, page: string, g: int): Option<nat> {
    var r := Last(rs, start, page, g);
    if r.Some? then Some(r.value.views) else None
  }

  function Get(pages: map<string, nat>, page: string): Option<nat> {
    if page in pages then Some(pages[page]) else None
  }

  /** Redis holds exactly the newest generation's last result per page, in agreement with its
      meta and the index; and nothing at all for a window no result was for. */
  ghost predicate Holds(st: Store, rs: seq<Result>, c: Config, start: int) {
    var g := Newest(rs, start);
    if g < 0 then
      start !in st.hash && start !in st.meta && start !in st.index
    else
      && start in st.hash && start in st.meta && start in st.index
      && st.meta[start] == Meta(g, start + c.length, start + c.length + c.retention)
      && st.hash[start].expireAt == start + c.length + c.retention
      && forall page :: Get(st.hash[start].pages, page) == LastViews(rs, start, page, g)
  }

  lemma WellTimedPrefix(execs: seq<Exec>, c: Config)
    requires WellTimed(execs, c) && execs != []
    ensures WellTimed(execs[..|execs| - 1], c)
  {
  }

  /** The window's state after any run of scripts, for a window still live at the end of it:
      the script computes the declarative rule. */
  lemma {:induction false} ScriptsHold(execs: seq<Exec>, c: Config, start: int)
    requires WellTimed(execs, c)
    requires execs != [] ==> Live(c, execs[|execs| - 1].t, start)
    ensures Holds(StoreAfter(execs, c.retention), Results(execs), c, start)
    decreases |execs|
  {
    if execs != [] {
      var n := |execs| - 1;
      var before, e := execs[..n], execs[n];
      WellTimedPrefix(execs, c);
      assert n > 0 ==> execs[n - 1].t <= e.t;
      ScriptsHold(before, c, start);
      ScriptStep(StoreAfter(before, c.retention), Results(before), e, c, start);
      ResultsOneMore(execs);
    }
  }

  lemma ResultsOneMore(execs: seq<Exec>)
    requires execs != []
    ensures Results(execs) == Results(execs[..|execs| - 1]) + [execs[|execs| - 1].result]
  {
  }

  lemma ScriptStep(st: Store, before: seq<Result>, e: Exec, c: Config, start: int)
    requires Holds(st, before, c, start) && Live(c, e.t, start) && e.now <= e.t
    requires e.result.end == e.result.start + c.length
    ensures Holds(After(st, e.result, c.retention, e.now, e.t), before + [e.result], c, start)
  {
    assert !Trimmed(e.result, c.retention, e.now, start);
    if e.result.start == start {
      ScriptOnWindow(st, before, e, c);
    } else {
      ScriptBeside(st, before, e, c, start);
    }
  }

  /** What one more result makes of a window's newest generation and of a page's last result. */
  lemma OneMoreResult(before: seq<Result>, r: Result, start: int)
    ensures Newest(before + [r], start) ==
            if r.start == start && r.generation > Newest(before, start) then r.generation else Newest(before, start)
    ensures forall page, g :: LastViews(before + [r], start, page, g) ==
              if Matches(r, start, page, g) then Some(r.views) else LastViews(before, start, page, g)
  {
    assert (before + [r])[..|before|] == before;
  }

  /** A script for another window leaves this one alone. */
  lemma ScriptBeside(st: Store, before: seq<Result>, e: Exec, c: Config, start: int)
    requires Holds(st, before, c, start) && e.result.start != start && !Trimmed(e.result, c.retention, e.now, start)
    ensures Holds(After(st, e.result, c.retention, e.now, e.t), before + [e.result], c, start)
  {
    OneMoreResult(before, e.result, start);
  }

  lemma ScriptOnWindow(st: Store, before: seq<Result>, e: Exec, c: Config)
    requires Holds(st, before, c, e.result.start) && Live(c, e.t, e.result.start) && e.now <= e.t
    requires e.result.end == e.result.start + c.length && !Trimmed(e.result, c.retention, e.now, e.result.start)
    ensures Holds(After(st, e.result, c.retention, e.now, e.t), before + [e.result], c, e.result.start)
  {
    var r, start := e.result, e.result.start;
    OneMoreResult(before, r, start);
    var was := Newest(before, start);
    assert Accepted(st, e.t, start) == was;
    if r.generation > was {
      NothingNewer(before, start, r.generation);
      PagesReplaced(before, r);
    } else if r.generation == was {
      PagesUpdated(st.hash[start].pages, before, r);
    }
  }

  lemma PagesReplaced(before: seq<Result>, r: Result)
    requires forall page :: LastViews(before, r.start, page, r.generation) == None
    ensures forall page :: Get(map[r.page := r.views], page) == LastViews(before + [r], r.start, page, r.generation)
  {
    OneMoreResult(before, r, r.start);
  }

  lemma PagesUpdated(pages: map<string, nat>, before: seq<Result>, r: Result)
    requires forall page :: Get(pages, page) == LastViews(before, r.start, page, r.generation)
    ensures forall page ::
              Get(pages[r.page := r.views], page) == LastViews(before + [r], r.start, page, r.generation)
  {
    OneMoreResult(before, r, r.start);
  }

  lemma NothingNewer(rs: seq<Result>, start: int, g: int)
    requires g > Newest(rs, start)
    ensures forall page :: LastViews(rs, start, page, g) == None
  {
  }

  lemma WellTimedUpTo(execs: seq<Exec>, c: Config, i: nat)
    requires WellTimed(execs, c) && i <= |execs|
    ensures WellTimed(execs[..i], c)
  {
  }

  lemma NewestOfPrefix(execs: seq<Exec>, i: nat, s: int)
    requires i <= |execs|
    ensures Newest(Results(execs[..i]), s) <= Newest(Results(execs), s)
  {
    var before, all := Results(execs[..i]), Results(execs);
    if Newest(before, s) >= 0 {
      var r :| r in before && r.start == s && r.generation == Newest(before, s);
      var k :| 0 <= k < |before| && before[k] == r;
      assert all[k] == r;
    }
  }

  /** A window live at `t` is held by the rule after every earlier part of the run. */
  lemma HeldAt(execs: seq<Exec>, c: Config, t: int, i: nat, s: int)
    requires WellTimed(execs, c) && i <= |execs| && (forall e :: e in execs ==> e.t <= t) && Live(c, t, s)
    ensures Holds(StoreAfter(execs[..i], c.retention), Results(execs[..i]), c, s)
  {
    WellTimedUpTo(execs, c, i);
    assert i > 0 ==> execs[..i][i - 1] in execs;
    ScriptsHold(execs[..i], c, s);
  }

  /** At any two moments of a run, while the window lives its generation never moves back. */
  lemma GenerationNeverMovesBack(execs: seq<Exec>, i: nat, j: nat, c: Config, t: int, s: int)
    requires WellTimed(execs, c) && i <= j <= |execs| && (forall e :: e in execs ==> e.t <= t) && Live(c, t, s)
    ensures Accepted(StoreAfter(execs[..i], c.retention), t, s) <= Accepted(StoreAfter(execs[..j], c.retention), t, s)
  {
    HeldAt(execs, c, t, i, s);
    HeldAt(execs, c, t, j, s);
    assert execs[..j][..i] == execs[..i];
    NewestOfPrefix(execs[..j], i, s);
  }

  // --- the index ----------------------------------------------------------------------------

  /** The `i`th script of the run wrote its result. */
  predicate Wrote(execs: seq<Exec>, c: Config, i: nat)
    requires i < |execs|
  {
    var e := execs[i];
    OutcomeOf(StoreAfter(execs[..i], c.retention), e.result, c.retention, e.now, e.t) == Written
  }

  /** If the `j`th script wrote, the window was not yet past its retention at its clock. */
  predicate Spares(execs: seq<Exec>, c: Config, start: int, j: nat)
    requires j < |execs|
  {
    Wrote(execs, c, j) ==> execs[j].now < start + c.length + c.retention
  }

  /** Written at `i`, and not yet past its retention at the clock of any script that wrote since. */
  ghost predicate InIndexSince(execs: seq<Exec>, c: Config, start: int, i: nat) {
    && i < |execs| && execs[i].result.start == start && Wrote(execs, c, i)
    && forall j: nat :: i <= j < |execs| ==> Spares(execs, c, start, j)
  }

  lemma AsBefore(execs: seq<Exec>, c: Config, start: int, j: nat)
    requires j + 1 < |execs|
    ensures var before := execs[..|execs| - 1];
            && execs[j] == before[j] && Wrote(execs, c, j) == Wrote(before, c, j)
            && Spares(execs, c, start, j) == Spares(before, c, start, j)
  {
    assert execs[..|execs| - 1][..j] == execs[..j];
  }

  lemma SinceBefore(execs: seq<Exec>, c: Config, start: int, i: nat)
    requires i + 1 < |execs|
    ensures var n := |execs| - 1;
            InIndexSince(execs, c, start, i) <==> InIndexSince(execs[..n], c, start, i) && Spares(execs, c, start, n)
  {
    var n := |execs| - 1;
    AsBefore(execs, c, start, i);
    if InIndexSince(execs, c, start, i) {
      forall j: nat | i <= j < n
        ensures Spares(execs[..n], c, start, j)
      {
        AsBefore(execs, c, start, j);
      }
    }
    if InIndexSince(execs[..n], c, start, i) && Spares(execs, c, start, n) {
      forall j: nat | i <= j < |execs|
        ensures Spares(execs, c, start, j)
      {
        if j < n {
          AsBefore(execs, c, start, j);
        }
      }
    }
  }

  lemma SinceOneMore(execs: seq<Exec>, c: Config, start: int)
    requires execs != []
    ensures var n := |execs| - 1;
            (exists i: nat :: InIndexSince(execs, c, start, i)) <==>
            && Spares(execs, c, start, n)
            && ((execs[n].result.start == start && Wrote(execs, c, n))
                || exists i: nat :: InIndexSince(execs[..n], c, start, i))
  {
    var n := |execs| - 1;
    if i: nat :| InIndexSince(execs, c, start, i) {
      assert Spares(execs, c, start, n);
      if i < n {
        SinceBefore(execs, c, start, i);
      }
    }
    if Spares(execs, c, start, n) {
      if execs[n].result.start == start && Wrote(execs, c, n) {
        assert InIndexSince(execs, c, start, n);
      } else if i: nat :| InIndexSince(execs[..n], c, start, i) {
        SinceBefore(execs, c, start, i);
      }
    }
  }

  /** The index names exactly the windows written and not expired since: what is written enters it,
      and each write takes out every window past its retention by then. */
  lemma {:induction false} IndexExactly(execs: seq<Exec>, c: Config, start: int)
    requires forall e :: e in execs ==> e.result.end == e.result.start + c.length
    ensures start in StoreAfter(execs, c.retention).index <==> exists i: nat :: InIndexSince(execs, c, start, i)
    decreases |execs|
  {
    if execs != [] {
      var n := |execs| - 1;
      IndexExactly(execs[..n], c, start);
      assert execs[n] in execs;
      SinceOneMore(execs, c, start);
    }
  }

  /** Once its end plus the retention has passed, no run of scripts leaves a window visible. */
  lemma {:induction false} ExpiredStaysGone(execs: seq<Exec>, c: Config, start: int, t: int)
    requires WellTimed(execs, c) && !Live(c, t, start)
    ensures var st := StoreAfter(execs, c.retention); !HasHash(st, t, start) && !HasMeta(st, t, start)
    decreases |execs|
  {
    if execs != [] {
      WellTimedPrefix(execs, c);
      ExpiredStaysGone(execs[..|execs| - 1], c, start, t);
    }
  }

  /** Trimming removes only expired windows exactly when the written window is at least as
      long as those it is compared with: a shorter one would trim windows still live. */
  lemma TrimIsSafeIff(length: int, other: int, retention: int)
    ensures (forall r: Result, now: int, start: int ::
               r.end == r.start + length && Trimmed(r, retention, now, start) ==> start + other + retention <= now)
       <==> other <= length
  {
    if other > length {
      var r := Result(0, length, "p", 0, 0);
      var now := length + retention;
      assert Trimmed(r, retention, now, 0) && 0 + other + retention > now;
    }
  }
}
