/** Shared vocabulary: an optional value, and integer sets walked in ascending order. */
module Basics {

  datatype Option<+T> = None | Some(value: T)

  ghost predicate Ascending(s: seq<int>) {
    forall i, j :: 0 <= i < j < |s| ==> s[i] < s[j]
  }

  lemma Pick<T>(s: set<T>) returns (x: T)
    requires s != {}
    ensures x in s
  {
    x :| x in s;
  }

  function Sum(ns: seq<nat>): nat {
    if ns == [] then 0 else Sum(ns[..|ns| - 1]) + ns[|ns| - 1]
  }

  ghost function Elements<T>(s: seq<T>): set<T> {
    set x | x in s
  }

  lemma OneMoreElement<T>(s: seq<T>, x: T)
    ensures Elements(s + [x]) == Elements(s) + {x}
  {
  }

  /** A map rebuilt key by key. */
  ghost function Rebuilt<K, V>(m: map<K, V>, order: seq<K>): map<K, V>
    requires Elements(order) <= m.Keys
  {
    if order == [] then map[] else
      var n := |order| - 1;
      assert order[n] in Elements(order);
      assert Elements(order[..n]) <= Elements(order);
      Rebuilt(m, order[..n])[order[n] := m[order[n]]]
  }

  lemma {:induction false} RebuiltWhole<K, V>(m: map<K, V>, order: seq<K>)
    requires Elements(order) <= m.Keys
    ensures Rebuilt(m, order).Keys == Elements(order)
    ensures forall k :: k in Rebuilt(m, order) ==> Rebuilt(m, order)[k] == m[k]
    ensures Elements(order) == m.Keys ==> Rebuilt(m, order) == m
  {
    if order != [] {
      var n := |order| - 1;
      assert order == order[..n] + [order[n]];
      OneMoreElement(order[..n], order[n]);
      RebuiltWhole(m, order[..n]);
    }
  }

  lemma {:induction false} MinExists(s: set<int>)
    requires s != {}
    ensures exists m :: m in s && forall x :: x in s ==> m <= x
  {
    var a := Pick(s);
    if s != {a} {
      MinExists(s - {a});
      var b :| b in s - {a} && forall x :: x in s - {a} ==> b <= x;
      var m := if a <= b then a else b;
      assert forall x :: x in s ==> x == a || x in s - {a};
      assert m in s && forall x :: x in s ==> m <= x;
    }
  }

  /** `sorted(keys)`: every element of the set once, in ascending order. */
  method SortedKeys(keys: set<int>) returns (s: seq<int>)
    ensures Ascending(s)
    ensures Elements(s) == keys
    ensures forall x :: x in s <==> x in keys
    ensures forall i :: 0 <= i < |s| ==> s[i] in keys
  {
    s := [];
    var rest := keys;
    while rest != {}
      invariant rest <= keys
      invariant Ascending(s) && Elements(s) == keys - rest
      invariant forall x :: x in s <==> x in keys - rest
      invariant forall x, y :: x in s && y in rest ==> x < y
      decreases rest
    {
      MinExists(rest);
      var m :| m in rest && forall x :: x in rest ==> m <= x;
      assert forall i :: 0 <= i < |s| ==> s[i] < m by {
        assert forall i :: 0 <= i < |s| ==> s[i] in s;
      }
      OneMoreElement(s, m);
      s := s + [m];
      rest := rest - {m};
    }
  }
}
