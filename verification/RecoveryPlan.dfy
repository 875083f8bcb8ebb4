/** Which validated claims may be removed, and the outermost trees that hold them. */
module RecoveryPlan {
  import opened Options
  import opened RecoveryTree
  import opened RecoveryRecords

  /** A claim that must survive this attempt; `path` is absent for processes and cgroups. */
  datatype Guard = Guard(path: Option<Path>, record: Record)

  predicate IsPlan(r: Record) {
    IsClaim(r) && r.identity.Place?
  }

  predicate Blocks(g: Guard, r: Record)
    requires IsPlan(r)
  {
    if g.path.Some? then r.identity.path <= g.path.value
    else r.session == g.record.session || r.session == "controller"
  }

  function Blockers(guards: seq<Guard>, r: Record): (bs: seq<Guard>)
    requires IsPlan(r)
    ensures forall g :: g in bs <==> g in guards && Blocks(g, r)
  {
    if guards == [] then []
    else (if Blocks(guards[0], r) then [guards[0]] else []) + Blockers(guards[1..], r)
  }

  predicate AllPlans(rs: seq<Record>) {
    forall i :: 0 <= i < |rs| ==> IsPlan(rs[i])
  }

  ghost predicate Distinct(rs: seq<Record>) {
    forall i, j :: 0 <= i < j < |rs| ==> rs[i] != rs[j]
  }

  // ---- outermost first ----

  function Depth(r: Record): nat
    requires IsPlan(r)
  {
    |r.identity.path|
  }

  predicate Shallowest(rs: seq<Record>) {
    AllPlans(rs) && forall i, j :: 0 <= i < j < |rs| ==> Depth(rs[i]) <= Depth(rs[j])
  }

  /** A stable sort step: after every record of no greater depth. */
  function Insert(r: Record, rs: seq<Record>): (s: seq<Record>)
    requires IsPlan(r) && AllPlans(rs)
    ensures AllPlans(s)
    ensures forall x :: x in s <==> x == r || x in rs
  {
    if rs == [] || Depth(r) < Depth(rs[0]) then [r] + rs else [rs[0]] + Insert(r, rs[1..])
  }

  lemma {:induction false} InsertDistinct(r: Record, rs: seq<Record>)
    requires IsPlan(r) && AllPlans(rs) && Distinct(rs) && r !in rs
    ensures Distinct(Insert(r, rs))
  {
    if rs != [] && Depth(r) >= Depth(rs[0]) {
      var t := Insert(r, rs[1..]);
      InsertDistinct(r, rs[1..]);
      assert rs[0] !in t;
      assert Insert(r, rs) == [rs[0]] + t;
    }
  }

  lemma {:induction false} InsertSorts(r: Record, rs: seq<Record>)
    requires IsPlan(r) && Shallowest(rs)
    ensures Shallowest(Insert(r, rs))
  {
    if rs != [] && Depth(r) >= Depth(rs[0]) {
      var t := Insert(r, rs[1..]);
      InsertSorts(r, rs[1..]);
      forall j | 0 <= j < |t| ensures Depth(rs[0]) <= Depth(t[j]) {
        assert t[j] in t;
      }
      assert Insert(r, rs) == [rs[0]] + t;
    }
  }

  function ByDepth(rs: seq<Record>): (s: seq<Record>)
    requires AllPlans(rs)
    ensures AllPlans(s) && forall x :: x in s <==> x in rs
  {
    if rs == [] then []
    else
      assert rs == rs[..|rs| - 1] + [rs[|rs| - 1]];
      Insert(rs[|rs| - 1], ByDepth(rs[..|rs| - 1]))
  }

  lemma {:induction false} ByDepthSorts(rs: seq<Record>)
    requires AllPlans(rs) && Distinct(rs)
    ensures Shallowest(ByDepth(rs)) && Distinct(ByDepth(rs))
  {
    if rs != [] {
      var front, last := rs[..|rs| - 1], rs[|rs| - 1];
      ByDepthSorts(front);
      hide Insert;
      InsertDistinct(last, ByDepth(front));
      InsertSorts(last, ByDepth(front));
    }
  }

  // ---- groups ----

  datatype Group = Group(root: Record, members: seq<Record>)

  predicate Contains(g: Group, r: Record)
    requires IsPlan(g.root) && IsPlan(r)
  {
    g.root.identity.path < r.identity.path
  }

  ghost predicate Holds(g: Group, r: Record) {
    r == g.root || r in g.members
  }

  ghost predicate ProperGroup(g: Group) {
    && IsPlan(g.root) && AllPlans(g.members)
    && Distinct(g.members) && g.root !in g.members
    && forall r :: r in g.members ==> g.root.identity.path < r.identity.path
  }

  ghost predicate Disjoint(g: Group, h: Group) {
    forall r :: Holds(g, r) ==> !Holds(h, r)
  }

  /** Groups hold every plan once, roots are outermost, and members lie strictly below their root. */
  ghost predicate Grouping(plans: seq<Record>, groups: seq<Group>) {
    && (forall g :: g in groups ==> ProperGroup(g))
    && (forall r :: r in plans <==> exists g :: g in groups && Holds(g, r))
    && (forall i, j :: 0 <= i < j < |groups| ==> Disjoint(groups[i], groups[j]))
    && (forall g, h :: g in groups && h in groups ==> !Contains(g, h.root))
  }

  /** The first group whose root lies strictly above the record. */
  method FindGroup(groups: seq<Group>, r: Record) returns (k: nat)
    requires IsPlan(r) && forall g :: g in groups ==> IsPlan(g.root)
    ensures k <= |groups| && (k < |groups| ==> Contains(groups[k], r))
    ensures forall i :: 0 <= i < k ==> !Contains(groups[i], r)
  {
    k := 0;
    while k < |groups| && !Contains(groups[k], r)
      invariant k <= |groups|
      invariant forall i :: 0 <= i < k ==> !Contains(groups[i], r)
    {
      k := k + 1;
    }
  }

  lemma NewRoot(done: seq<Record>, groups: seq<Group>, r: Record)
    requires Grouping(done, groups) && IsPlan(r) && r !in done
    requires forall x :: x in done ==> IsPlan(x) && Depth(x) <= Depth(r)
    requires forall g :: g in groups ==> !Contains(g, r)
    ensures Grouping(done + [r], groups + [Group(r, [])])
  {
    var more := groups + [Group(r, [])];
    var added := Group(r, []);
    assert added in more && Holds(added, r);
    forall g | g in groups ensures !Holds(g, r) && Depth(g.root) <= Depth(r) {
      assert Holds(g, g.root);
      assert g.root in done;
    }
    forall i | 0 <= i < |groups| ensures Disjoint(groups[i], added) {
      assert groups[i] in groups;
    }
    forall x | x in done ensures exists g :: g in more && Holds(g, x) {
      var g :| g in groups && Holds(g, x);
      assert g in more;
    }
  }

  function Joined(groups: seq<Group>, k: nat, r: Record): (s: seq<Group>)
    requires k < |groups|
    ensures |s| == |groups|
  {
    groups[k := Group(groups[k].root, groups[k].members + [r])]
  }

  lemma JoinedHolds(done: seq<Record>, groups: seq<Group>, k: nat, r: Record)
    requires Grouping(done, groups) && k < |groups| && IsPlan(r) && r !in done
    ensures forall x :: x in done + [r] <==> exists g :: g in Joined(groups, k, r) && Holds(g, x)
  {
    var joined := Joined(groups, k, r);
    assert joined[k] in joined && Holds(joined[k], r);
    forall x | x in done ensures exists g :: g in joined && Holds(g, x) {
      var g :| g in groups && Holds(g, x);
      var i :| 0 <= i < |groups| && groups[i] == g;
      assert joined[i] in joined && Holds(joined[i], x);
    }
    forall x, g | g in joined && Holds(g, x) ensures x in done + [r] {
      var i :| 0 <= i < |joined| && joined[i] == g;
      assert groups[i] in groups;
      assert x == r || Holds(groups[i], x);
    }
  }

  lemma JoinedProper(groups: seq<Group>, k: nat, r: Record, i: nat)
    requires k < |groups| && i < |groups| && ProperGroup(groups[i]) && IsPlan(r) && !Holds(groups[i], r)
    requires i == k ==> Contains(groups[i], r)
    ensures ProperGroup(Joined(groups, k, r)[i]) && Joined(groups, k, r)[i].root == groups[i].root
    ensures forall x :: Holds(Joined(groups, k, r)[i], x) ==> Holds(groups[i], x) || (i == k && x == r)
  {}

  lemma NewMember(done: seq<Record>, groups: seq<Group>, k: nat, r: Record)
    requires Grouping(done, groups) && k < |groups| && ProperGroup(groups[k])
    requires IsPlan(r) && r !in done && Contains(groups[k], r)
    ensures Grouping(done + [r], Joined(groups, k, r))
  {
    var joined := Joined(groups, k, r);
    JoinedHolds(done, groups, k, r);
    forall i | 0 <= i < |groups|
      ensures ProperGroup(joined[i]) && joined[i].root == groups[i].root && groups[i] in groups && !Holds(groups[i], r)
      ensures forall x :: Holds(joined[i], x) ==> Holds(groups[i], x) || (i == k && x == r)
    {
      assert groups[i] in groups;
      assert Holds(groups[i], r) ==> r in done;
      JoinedProper(groups, k, r, i);
    }
    hide Joined, ProperGroup;
    forall i, j | 0 <= i < j < |joined| ensures Disjoint(joined[i], joined[j]) {
      assert Disjoint(groups[i], groups[j]);
    }
  }

  method GroupPlans(plans: seq<Record>) returns (groups: seq<Group>)
    requires AllPlans(plans) && Distinct(plans)
    ensures Grouping(plans, groups)
  {
    var sorted := ByDepth(plans);
    ByDepthSorts(plans);
    groups := [];
    assert Grouping(sorted[..0], groups);
    assert Grouping(sorted[..0], groups) ==> forall g :: g in groups ==> ProperGroup(g);
    hide ByDepth, Grouping;
    for i := 0 to |sorted|
      invariant Grouping(sorted[..i], groups)
      invariant forall g :: g in groups ==> ProperGroup(g)
    {
      var r := sorted[i];
      var k := FindGroup(groups, r);
      if k == |groups| {
        NewRoot(sorted[..i], groups, r);
        groups := groups + [Group(r, [])];
      } else {
        assert ProperGroup(groups[k]);
        NewMember(sorted[..i], groups, k, r);
        groups := Joined(groups, k, r);
      }
      assert sorted[..i] + [r] == sorted[..i + 1];
    }
    assert sorted[..|sorted|] == sorted;
    SameGrouping(sorted, plans, groups);
  }

  lemma SameGrouping(a: seq<Record>, b: seq<Record>, groups: seq<Group>)
    requires Grouping(a, groups) && forall r :: r in a <==> r in b
    ensures Grouping(b, groups)
  {}

  // ---- the removal set ----

  /** The plans no guard blocks. */
  ghost predicate Unblocked(plans: seq<Record>, guards: seq<Guard>, safe: seq<Record>) {
    && AllPlans(plans) && AllPlans(safe)
    && forall r :: r in safe <==> r in plans && IsPlan(r) && forall g :: g in guards ==> !Blocks(g, r)
  }
}
