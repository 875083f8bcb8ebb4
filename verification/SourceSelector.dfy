/** The include paths an operator states, checked as a whole before anything is copied, and
    why their order does not matter. */
module SourceSelector {
  import opened Options
  import opened SourcePaths
  import opened SourceView
  import opened SourceCopy
  import opened Utf8

  const MAX_INCLUDE_PATHS := 1_024
  const MAX_SELECTOR_BYTES := 65_535

  /** `_checked_include_path`: a bounded relative path in canonical spelling, here by its components. */
  predicate Canonical(p: Path) {
    p != [] && PathBytes(p) <= MAX_RELATIVE_PATH_BYTES && forall i :: 0 <= i < |p| ==> CanonicalName(p[i])
  }

  lemma CanonicalMeans(p: Path)
    ensures Canonical(p) <==> p != [] && TextBytes(Joined(p)) <= 1_024 && forall i :: 0 <= i < |p| ==> Plain(p[i])
  {
    JoinedBytes(p);
  }

  function TotalPathBytes(picks: seq<Path>): nat {
    if picks == [] then 0 else PathBytes(picks[0]) + TotalPathBytes(picks[1..])
  }

  /** What an include list must be to be used at all. */
  ghost predicate WellStated(picks: seq<Path>) {
    && 0 < |picks| <= MAX_INCLUDE_PATHS && (forall i :: 0 <= i < |picks| ==> Canonical(picks[i]))
    && TotalPathBytes(picks) <= MAX_SELECTOR_BYTES && Unrelated(picks)
  }

  predicate LimitsOk(limits: Limits) {
    0 < limits.maxFiles <= 0x1000_0000_0000_0000 && 0 < limits.maxBytes <= 0x1000_0000_0000_0000
  }

  lemma {:induction false} TotalNext(picks: seq<Path>, i: nat)
    requires i < |picks|
    ensures TotalPathBytes(picks[..i + 1]) == TotalPathBytes(picks[..i]) + PathBytes(picks[i])
  {
    if i > 0 {
      TotalNext(picks[1..], i - 1);
      assert picks[..i + 1][1..] == picks[1..][..i] && picks[..i][1..] == picks[1..][..i - 1];
    }
  }

  /** `_normalized_include_paths`: count, each path, the bytes in all, and no overlap or repeat. */
  method CheckSelector(picks: seq<Path>) returns (ok: bool)
    ensures ok <==> WellStated(picks)
  {
    hide PathBytes, Unrelated;
    if picks == [] || |picks| > MAX_INCLUDE_PATHS { return false; }
    var total := 0;
    for i := 0 to |picks|
      invariant total == TotalPathBytes(picks[..i]) && forall j :: 0 <= j < i ==> Canonical(picks[j])
    {
      if !Canonical(picks[i]) { return false; }
      TotalNext(picks, i);
      total := total + PathBytes(picks[i]);
    }
    assert picks[..|picks|] == picks;
    if total > MAX_SELECTOR_BYTES { return false; }
    ok := CheckPicks(picks);
  }

  /** The workspace the copy goes to, at `workspace`, neither holds the source, at `at`, nor meets a path chosen from
      it. */
  ghost predicate Apart(at: Path, picks: seq<Path>, workspace: Path) {
    !(workspace <= at) && forall p :: p in picks ==> !Related(at + p, workspace)
  }

  method CheckApart(at: Path, picks: seq<Path>, workspace: Path) returns (ok: bool)
    ensures ok <==> Apart(at, picks, workspace)
  {
    if workspace <= at { return false; }
    for i := 0 to |picks|
      invariant forall j :: 0 <= j < i ==> !Related(at + picks[j], workspace)
    {
      if Related(at + picks[i], workspace) {
        assert picks[i] in picks;
        return false;
      }
    }
    ok := true;
  }

  /** So nothing that is copied lies in the workspace. */
  lemma ApartFromCopy(source: Tree, at: Path, picks: seq<Path>, workspace: Path, q: Path)
    requires Apart(at, picks, workspace) && q in Selected(source, SetOf(picks))
    ensures !(workspace <= at + q)
  {
    var p :| p in picks && Related(q, p);
    if p <= q {
      assert at + q == (at + p) + q[|p|..];
    } else {
      assert at + p == (at + q) + p[|q|..];
    }
  }

  /** Whatever is selected and admissible is an ordinary directory or a file with one name, plainly named. */
  lemma Crossed(source: Tree, picks: seq<Path>, limits: Limits)
    requires Admissible(source, SetOf(picks), limits)
    ensures var s := Selected(source, SetOf(picks));
            && (forall q :: q in Restriction(source, s) ==> q in s)
            && forall q :: q in s ==>
              && q in source && q != [] && Plain(q[|q| - 1]) && Restriction(source, s)[q] == CopyOf(source[q])
              && ((source[q].Folder? && source[q].identity != limits.workspace && CopyOf(source[q]) == CopiedFolder)
                  || (source[q].File? && source[q].links == 1
                      && CopyOf(source[q]) == CopiedFile(source[q].content, source[q].executable)))
  {
    hide SetOf, Related, PathBytes;
    var s := Selected(source, SetOf(picks));
    forall q | q in s ensures EntryOk(source, limits, q) && Plain(q[|q| - 1]) { EntryOkMeans(source, limits, q); }
  }

  /** A stated selection is delivered exactly when it is well stated, apart from the workspace, and everything it
      names may be copied; the view is then the source restricted to it. */
  method ViewOf(source: Tree, at: Path, picks: seq<Path>, limits: Limits, workspace: Path)
    returns (r: Option<Materialized>)
    requires WellFormed(source)
    ensures r.Some? <==> && WellStated(picks) && Apart(at, picks, workspace) && Admissible(source, SetOf(picks), limits)
                         && 1 <= limits.maxFiles <= 0x1000_0000_0000_0000
                         && 1 <= limits.maxBytes <= 0x1000_0000_0000_0000
    ensures r.Some? ==> var s := Selected(source, SetOf(picks));
              && r.value.view == Restriction(source, s) && Lists(source, s, r.value.manifest)
              && |r.value.manifest| <= limits.maxFiles && Size(source, s) <= limits.maxBytes
              && forall q :: q in s ==> !(workspace <= at + q)
    ensures r.Some? ==> forall q :: q in r.value.view ==>
              && q in source && q != [] && Plain(q[|q| - 1])
              && (match source[q]
                  case Folder(identity) => identity != limits.workspace && r.value.view[q] == CopiedFolder
                  case File(content, executable, links) =>
                    links == 1 && r.value.view[q] == CopiedFile(content, executable)
                  case _ => false)
  {
    hide Admissible, Lists, Selected, SetOf, Restriction, Size, PathBytes, Unrelated, WellFormed, TotalPathBytes, Apart;
    var ok := CheckSelector(picks);
    if !ok || !LimitsOk(limits) { return None; }
    var apart := CheckApart(at, picks, workspace);
    if !apart { return None; }
    r := Materialize(source, picks, limits);
    if r.Some? { Crossed(source, picks, limits); }
    forall q | q in Selected(source, SetOf(picks)) ensures !(workspace <= at + q) {
      ApartFromCopy(source, at, picks, workspace, q);
    }
  }

  // ---- the order of the include paths ----

  lemma {:induction false} TotalWithout(picks: seq<Path>, i: nat)
    requires i < |picks|
    ensures TotalPathBytes(picks) == PathBytes(picks[i]) + TotalPathBytes(picks[..i] + picks[i + 1..])
  {
    if i == 0 {
      assert picks[..0] + picks[1..] == picks[1..];
    } else {
      TotalWithout(picks[1..], i - 1);
      assert (picks[..i] + picks[i + 1..])[1..] == picks[1..][..i - 1] + picks[1..][i..];
      assert (picks[..i] + picks[i + 1..])[0] == picks[0];
    }
  }

  lemma Without(picks: seq<Path>, i: nat)
    requires i < |picks|
    ensures multiset(picks[..i] + picks[i + 1..]) == multiset(picks) - multiset{picks[i]}
  {
    var front, back := picks[..i], picks[i + 1..];
    assert picks == front + [picks[i]] + back;
    assert multiset(picks) == multiset(front) + multiset{picks[i]} + multiset(back);
    assert multiset(front + back) == multiset(front) + multiset(back);
  }

  lemma SameWithout(a: seq<Path>, b: seq<Path>, i: nat)
    requires multiset(a) == multiset(b) && a != [] && i < |b| && b[i] == a[0]
    ensures multiset(a[1..]) == multiset(b[..i] + b[i + 1..])
  {
    Without(a, 0);
    Without(b, i);
    assert a[..0] + a[1..] == a[1..];
  }

  lemma {:induction false} TotalReordered(a: seq<Path>, b: seq<Path>)
    requires multiset(a) == multiset(b)
    ensures TotalPathBytes(a) == TotalPathBytes(b)
  {
    hide PathBytes;
    if a == [] {
      assert |b| == |multiset(b)|;
    } else {
      assert a[0] in multiset(b);
      var i :| 0 <= i < |b| && b[i] == a[0];
      SameWithout(a, b, i);
      TotalWithout(b, i);
      TotalReordered(a[1..], b[..i] + b[i + 1..]);
    }
  }

  /** Without repeats and without one path leading to another. */
  lemma UnrelatedSet(picks: seq<Path>)
    ensures Unrelated(picks) <==>
              && |SetOf(picks)| == |picks|
              && forall x, y :: x in picks && y in picks && x != y ==> !Related(x, y)
  {
    DistinctSize(picks, |picks|);
    assert SetOf(picks) == set i | 0 <= i < |picks| :: picks[i];
    if Unrelated(picks) {
      forall x, y | x in picks && y in picks && x != y ensures !Related(x, y) {
        var i :| 0 <= i < |picks| && picks[i] == x;
        var j :| 0 <= j < |picks| && picks[j] == y;
        assert !Related(if i < j then x else y, if i < j then y else x);
      }
    }
  }

  lemma SameWhenReordered(a: seq<Path>, b: seq<Path>)
    requires multiset(a) == multiset(b)
    ensures WellStated(a) <==> WellStated(b)
    ensures SetOf(a) == SetOf(b) && forall x :: x in a <==> x in b
  {
    assert forall x :: x in a <==> x in multiset(a);
    assert forall x :: x in b <==> x in multiset(b);
    assert |a| == |multiset(a)| == |b|;
    assert SetOf(a) == SetOf(b);
    TotalReordered(a, b);
    UnrelatedSet(a);
    UnrelatedSet(b);
    hide Unrelated, PathBytes, TotalPathBytes, Related;
    assert (forall i :: 0 <= i < |a| ==> Canonical(a[i])) <==> (forall x :: x in a ==> Canonical(x));
    assert (forall i :: 0 <= i < |b| ==> Canonical(b[i])) <==> (forall x :: x in b ==> Canonical(x));
  }

  /** Stating the same paths in another order gives the same verdict, the same view and the same manifest. */
  method ViewTwice(source: Tree, at: Path, picks: seq<Path>, others: seq<Path>, limits: Limits, workspace: Path)
    returns (a: Option<Materialized>, b: Option<Materialized>)
    requires WellFormed(source) && multiset(picks) == multiset(others)
    ensures a == b
  {
    hide WellFormed, WellStated, Lists, Admissible, Size, Selected, SetOf, Restriction;
    SameWhenReordered(picks, others);
    a := ViewOf(source, at, picks, limits, workspace);
    b := ViewOf(source, at, others, limits, workspace);
    if a.Some? && b.Some? {
      ListingUnique(source, Selected(source, SetOf(picks)), a.value.manifest, b.value.manifest);
    }
  }
}
