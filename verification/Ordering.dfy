/** Strings in the order Python sorts them: by code point, a prefix before what it is a prefix of. */
module Ordering {
  import opened Basics

  predicate Before(a: string, b: string) {
    b != [] && (a == [] || a[0] < b[0] || (a[0] == b[0] && Before(a[1..], b[1..])))
  }

  lemma {:induction false} Total(a: string, b: string)
    ensures a == b || Before(a, b) || Before(b, a)
  {
    if a != [] && b != [] && a[0] == b[0] {
      Total(a[1..], b[1..]);
      assert a == [a[0]] + a[1..] && b == [b[0]] + b[1..];
    }
  }

  lemma {:induction false} Transitive(a: string, b: string, c: string)
    requires Before(a, b) && Before(b, c)
    ensures Before(a, c)
  {
    if a != [] && a[0] == b[0] == c[0] {
      Transitive(a[1..], b[1..], c[1..]);
    }
  }

  predicate First(m: string, s: set<string>) {
    m in s && forall x :: x in s ==> x == m || Before(m, x)
  }

  lemma {:induction false} FirstExists(s: set<string>)
    requires s != {}
    ensures exists m :: First(m, s)
  {
    var a := Pick(s);
    if s == {a} {
      assert First(a, s);
    } else {
      FirstExists(s - {a});
      var b :| First(b, s - {a});
      Total(a, b);
      var m := if Before(a, b) then a else b;
      forall x | x in s
        ensures x == m || Before(m, x)
      {
        if x != a && x != b && m == a {
          Transitive(a, b, x);
        }
      }
      assert First(m, s);
    }
  }

  ghost predicate InOrder(s: seq<string>) {
    forall i, j :: 0 <= i < j < |s| ==> Before(s[i], s[j])
  }

  /** `sorted(names)`: every one once, in order. */
  method Sorted(names: set<string>) returns (s: seq<string>)
    ensures InOrder(s) && forall x :: x in s <==> x in names
  {
    s := [];
    var rest := names;
    while rest != {}
      invariant rest <= names && InOrder(s)
      invariant forall x :: x in s <==> x in names - rest
      invariant forall x, y :: x in s && y in rest ==> Before(x, y)
      decreases rest
    {
      FirstExists(rest);
      var m :| m in rest && First(m, rest);
      assert forall i :: 0 <= i < |s| ==> s[i] in s;
      s := s + [m];
      rest := rest - {m};
    }
  }
}
