/** Lexicographic order on strings, and the ascending enumeration of a finite set of them. */
module Ordered {

  predicate Below(a: string, b: string)
    decreases |a|
  {
    if b == "" then false
    else if a == "" then true
    else a[0] < b[0] || (a[0] == b[0] && Below(a[1..], b[1..]))
  }

  lemma {:induction false} BelowIrreflexive(a: string)
    ensures !Below(a, a)
  {
    if a != "" { BelowIrreflexive(a[1..]); }
  }

  lemma {:induction false} BelowTransitive(a: string, b: string, c: string)
    requires Below(a, b) && Below(b, c)
    ensures Below(a, c)
    decreases |a|
  {
    if a != "" && a[0] == b[0] && b[0] == c[0] { BelowTransitive(a[1..], b[1..], c[1..]); }
  }

  lemma {:induction false} BelowTotal(a: string, b: string)
    ensures a == b || Below(a, b) || Below(b, a)
    decreases |a|
  {
    if a != "" && b != "" && a[0] == b[0] {
      BelowTotal(a[1..], b[1..]);
      assert a == [a[0]] + a[1..] && b == [b[0]] + b[1..];
    }
  }

  predicate IsLeast(s: set<string>, m: string) {
    m in s && forall x :: x in s && x != m ==> Below(m, x)
  }

  lemma {:induction false} LeastExists(s: set<string>)
    requires s != {}
    ensures exists m :: IsLeast(s, m)
    decreases |s|
  {
    var x :| x in s;
    var rest := s - {x};
    if rest == {} {
      assert s == {x};
      assert IsLeast(s, x);
    } else {
      LeastExists(rest);
      var m :| IsLeast(rest, m);
      BelowTotal(x, m);
      if Below(m, x) {
        assert IsLeast(s, m);
      } else {
        forall y | y in s && y != x ensures Below(x, y) {
          if y != m { BelowTransitive(x, m, y); }
        }
        assert IsLeast(s, x);
      }
    }
  }

  lemma LeastUnique(s: set<string>, a: string, b: string)
    requires IsLeast(s, a) && IsLeast(s, b)
    ensures a == b
  {
    if a != b {
      BelowTransitive(a, b, a);
      BelowIrreflexive(a);
    }
  }

  function Least(s: set<string>): (m: string)
    requires s != {}
    ensures IsLeast(s, m)
  {
    LeastExists(s);
    assert forall a, b :: IsLeast(s, a) && IsLeast(s, b) ==> a == b by {
      forall a, b | IsLeast(s, a) && IsLeast(s, b) { LeastUnique(s, a, b); }
    }
    var m :| IsLeast(s, m);
    m
  }

  predicate StrictlyAscending(xs: seq<string>) {
    forall i, j :: 0 <= i < j < |xs| ==> Below(xs[i], xs[j])
  }

  /** The elements of `s` from least to greatest: the iteration order of an ordered set or map. */
  function Ascending(s: set<string>): (xs: seq<string>)
    ensures forall x :: x in xs <==> x in s
    ensures StrictlyAscending(xs) && |xs| == |s|
    decreases |s|
  {
    if s == {} then [] else var m := Least(s); [m] + Ascending(s - {m})
  }
}
