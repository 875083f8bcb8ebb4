/** Relative paths as component sequences, and their component-wise order. */
module SourcePaths {
  import opened Ordered

  type Path = seq<string>

  /** Component by component, a directory before what it holds. */
  predicate PathBelow(p: Path, q: Path) {
    q != [] && (p == [] || Below(p[0], q[0]) || (p[0] == q[0] && PathBelow(p[1..], q[1..])))
  }

  /** One path is the other or leads to it. */
  predicate Related(p: Path, q: Path) {
    p <= q || q <= p
  }

  lemma {:induction false} PathIrreflexive(p: Path)
    ensures !PathBelow(p, p)
  {
    if p != [] {
      BelowIrreflexive(p[0]);
      PathIrreflexive(p[1..]);
    }
  }

  lemma {:induction false} PathTransitive(p: Path, q: Path, r: Path)
    requires PathBelow(p, q) && PathBelow(q, r)
    ensures PathBelow(p, r)
  {
    if p != [] {
      if Below(p[0], q[0]) && Below(q[0], r[0]) {
        BelowTransitive(p[0], q[0], r[0]);
      } else if p[0] == q[0] && q[0] == r[0] {
        PathTransitive(p[1..], q[1..], r[1..]);
      }
    }
  }

  lemma {:induction false} PathTotal(p: Path, q: Path)
    ensures p == q || PathBelow(p, q) || PathBelow(q, p)
  {
    if p != [] && q != [] {
      BelowTotal(p[0], q[0]);
      PathTotal(p[1..], q[1..]);
      assert p == [p[0]] + p[1..] && q == [q[0]] + q[1..];
    }
  }

  lemma {:induction false} PrefixBelow(p: Path, q: Path)
    requires p < q
    ensures PathBelow(p, q)
  {
    if p != [] {
      assert p[1..] < q[1..];
      PrefixBelow(p[1..], q[1..]);
    }
  }

  /** Paths that part ways keep their order however they go on or are cut behind the parting. */
  lemma {:induction false} PartedBelow(p: Path, q: Path, a: Path, b: Path)
    requires PathBelow(p, q) && !Related(p, q)
    requires Related(a, p) && Related(b, q) && !(b <= a)
    ensures PathBelow(a, b)
  {
    assert p != [] && q != [];
    if a != [] && b != [] {
      if p[0] == q[0] {
        assert a[0] == p[0] && b[0] == q[0];
        BelowIrreflexive(p[0]);
        TailRelated(p, q);
        TailRelated(a, p);
        TailRelated(b, q);
        TailRelated(a, b);
        PartedBelow(p[1..], q[1..], a[1..], b[1..]);
      }
    }
  }

  lemma TailRelated(p: Path, q: Path)
    requires p != [] && q != [] && p[0] == q[0]
    ensures p <= q <==> p[1..] <= q[1..]
    ensures q <= p <==> q[1..] <= p[1..]
  {
    assert p == [p[0]] + p[1..] && q == [q[0]] + q[1..];
  }
}
