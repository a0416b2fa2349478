/** At-least-once processing of one log. What matters of it is which entry of a kind was processed
    last, and whether that is the one the log itself has last. */
module Replay {
  import opened Basics

  /** `ds` is the offsets processed, in the order they were, some perhaps more than once. */
  predicate Valid<E>(log: seq<E>, ds: seq<nat>) {
    forall i :: 0 <= i < |ds| ==> ds[i] < |log|
  }

  /** The last offset below `k` whose entry is of the kind, in the log's own order. */
  function LastIn<E>(log: seq<E>, k: nat, kind: E -> bool): (o: Option<nat>)
    requires k <= |log|
    ensures o.Some? ==> o.value < k && kind(log[o.value])
  {
    if k == 0 then None
    else if kind(log[k - 1]) then Some(k - 1)
    else LastIn(log, k - 1, kind)
  }

  /** The same, by order of processing. */
  ghost function LastDone<E>(log: seq<E>, ds: seq<nat>, k: nat, kind: E -> bool): (o: Option<nat>)
    requires Valid(log, ds)
    ensures o.Some? ==> o.value < |log| && o.value in ds
  {
    if ds == [] then None
    else
      var n := |ds| - 1;
      if ds[n] < k && kind(log[ds[n]]) then Some(ds[n]) else LastDone(log, ds[..n], k, kind)
  }

  /** Of every kind, the last one below `k` to be processed is the log's last. */
  ghost predicate InOrder<E(!new)>(log: seq<E>, ds: seq<nat>, k: nat)
    requires Valid(log, ds) && k <= |log|
  {
    forall kind: E -> bool :: LastDone(log, ds, k, kind) == LastIn(log, k, kind)
  }

  /** Everything below `pos` has been processed in the end in the log's own order, whatever was
      processed before or beside it. */
  ghost predicate Faithful<E(!new)>(log: seq<E>, ds: seq<nat>, pos: nat) {
    Valid(log, ds) && pos <= |log| && forall k: nat :: k <= pos ==> InOrder(log, ds, k)
  }

  lemma {:induction false} BoundIgnoresMiss<E>(log: seq<E>, ds: seq<nat>, k: nat, kind: E -> bool)
    requires Valid(log, ds) && 1 <= k <= |log| && !kind(log[k - 1])
    ensures LastDone(log, ds, k, kind) == LastDone(log, ds, k - 1, kind)
    decreases |ds|
  {
    if ds != [] {
      BoundIgnoresMiss(log, ds[..|ds| - 1], k, kind);
    }
  }

  /** The next entry is processed, and counted. */
  lemma NextKeeps<E(!new)>(log: seq<E>, ds: seq<nat>, pos: nat)
    requires Faithful(log, ds, pos) && pos < |log|
    ensures Faithful(log, ds + [pos], pos + 1)
  {
    var ds' := ds + [pos];
    assert ds'[..|ds|] == ds;
    forall k: nat | k <= pos + 1
      ensures InOrder(log, ds', k)
    {
      if k <= pos {
        assert InOrder(log, ds, k);
      } else {
        assert InOrder(log, ds, pos);
        forall kind: E -> bool
          ensures LastDone(log, ds', k, kind) == LastIn(log, k, kind)
        {
          if !kind(log[pos]) {
            BoundIgnoresMiss(log, ds, k, kind);
          }
        }
      }
    }
  }

  /** An entry processed out of turn, at or past the position, disturbs nothing before it. */
  lemma StrayKeeps<E(!new)>(log: seq<E>, ds: seq<nat>, pos: nat, o: nat)
    requires Faithful(log, ds, pos) && pos <= o < |log|
    ensures Faithful(log, ds + [o], pos)
  {
    var ds' := ds + [o];
    assert ds'[..|ds|] == ds;
    forall k: nat | k <= pos
      ensures InOrder(log, ds', k)
    {
      assert InOrder(log, ds, k);
    }
  }

  /** Going back to an earlier position loses nothing. */
  lemma BackKeeps<E(!new)>(log: seq<E>, ds: seq<nat>, pos: nat, earlier: nat)
    requires Faithful(log, ds, pos) && earlier <= pos
    ensures Faithful(log, ds, earlier)
  {
  }

  /** Everything below the position has been processed. */
  lemma AllDone<E(!new)>(log: seq<E>, ds: seq<nat>, pos: nat, o: nat)
    requires Faithful(log, ds, pos) && o < pos
    ensures o in ds
  {
    var any := (e: E) => true;
    assert InOrder(log, ds, o + 1);
    assert LastIn(log, o + 1, any) == Some(o);
    assert LastDone(log, ds, o + 1, any) == Some(o);
  }
}
