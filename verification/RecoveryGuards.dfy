/** Which records an attempt must leave alone: the guards the first pass puts up, and what they
    mean for the trees the last pass removes. */
module RecoveryGuards {
  import opened Options
  import opened RecoveryTree
  import opened RecoveryRecords
  import opened RecoveryPlan
  import opened RecoverySafety
  import opened RecoveryResults

  /** The outcome of reviewing one record. */
  datatype Verdict = Planned | Outcome(item: Item, guard: Option<Guard>)

  function RecordPath(r: Record): Option<Path> {
    if r.identity.Place? then Some(r.identity.path) else None
  }

  /** Where a record is protected: an open process or cgroup of this owner nowhere, any other at its recorded path. */
  function GuardPath(r: Record): Option<Path> {
    if r.owned && !IsClaim(r) && !Terminal(r.phase) && !(r.phase.RetainedByPolicy? && !r.recoverable) then None
    else RecordPath(r)
  }

  /** The guard that stands for a record. */
  predicate Shields(r: Record, g: Guard) {
    g.record.id == r.id && g.record.session == r.session && g.path == GuardPath(r)
  }

  predicate Unharmed(item: Item) {
    item.disposition.Recovered? || item.disposition.Unconfirmed?
  }

  /** Whatever is neither recovered nor merely unconfirmed is guarded. */
  predicate GuardFits(r: Record, v: Verdict)
    requires v.Outcome?
  {
    (v.guard.None? <==> Unharmed(v.item)) && (v.guard.Some? ==> Shields(r, v.guard.value))
  }

  /** How the first pass may report a record: foreign or ambiguous ones as doubtful, kept ones as retained,
      a directory claim as recovered only when it was reclaimed before, and a reclaimed cgroup as unconfirmed
      exactly when no evidence of its emptiness was kept. */
  predicate Judged(r: Record, item: Item) {
    && (!r.owned || (r.phase.Ambiguous? && r.owned) ==> item.disposition.Doubtful?)
    && (item.disposition.Retained? <==> r.owned && r.phase.RetainedByPolicy? && !r.recoverable)
    && (IsClaim(r) && Unharmed(item) ==> r.phase.Reclaimed?)
    && (IsClaim(r) && r.owned && r.phase.Reclaimed? ==> item.disposition.Recovered?)
    && (item.disposition.Unconfirmed? <==> r.owned && r.phase.Reclaimed? && r.kind.Cgroup? && !r.evidence)
  }

  /** The reason the first pass gives. */
  predicate Because(tree: Tree, r: Record, reason: Option<Reason>)
    requires Publishable(r)
  {
    if !r.owned then reason == Some(ForeignRootOrUid)
    else if r.phase.Reclaimed? then
      reason == if r.kind.Cgroup? && !r.evidence then Some(TerminalCountersNotRetained) else None
    else if r.phase.RetainedByPolicy? && !r.recoverable then reason == Some(KeptByPolicy)
    else if r.phase.Ambiguous? then reason == Some(OwnershipAmbiguous)
    else IsClaim(r) ==> Locate(tree, r).Refused? && reason == Some(Locate(tree, r).reason)
  }

  /** The item spares the record exactly when it is this owner's and, by now, reclaimed. */
  ghost predicate Told(r: Record, item: Item, journal: Journal) {
    r.id in journal && (Unharmed(item) <==> r.owned && journal[r.id].phase.Reclaimed?)
  }

  ghost predicate AllTold(journal: Journal, records: seq<Record>, items: seq<Item>) {
    forall i, k :: 0 <= i < |records| && 0 <= k < |items| && items[k].id == records[i].id ==>
                     Told(records[i], items[k], journal)
  }

  lemma ToldMore(journal: Journal, next: Journal, records: seq<Record>, n: nat, items: seq<Item>, item: Item)
    requires n < |records| && DistinctRecords(records) && AllTold(journal, records, items)
    requires Touches(journal, next, records[n].id) && !Listed(items, records[n].id)
    requires item.id == records[n].id && Told(records[n], item, next)
    ensures AllTold(next, records, items + [item])
  {
    var more := items + [item];
    forall i, k | 0 <= i < |records| && 0 <= k < |more| && more[k].id == records[i].id
      ensures Told(records[i], more[k], next)
    {
      if k < |items| {
        assert more[k] == items[k] && Told(records[i], items[k], journal);
      } else {
        assert i == n;
      }
    }
  }

  /** An item speaks against the record. */
  ghost predicate Doubted(items: seq<Item>, id: string) {
    exists k :: 0 <= k < |items| && items[k].id == id && !Unharmed(items[k])
  }

  ghost predicate Listed(items: seq<Item>, id: string) {
    exists k :: 0 <= k < |items| && items[k].id == id
  }

  ghost predicate GuardFor(records: seq<Record>, guards: seq<Guard>, id: string) {
    exists i, g :: 0 <= i < |records| && records[i].id == id && g in guards && Shields(records[i], g)
  }

  ghost predicate DoubtFor(records: seq<Record>, items: seq<Item>, g: Guard) {
    exists i :: 0 <= i < |records| && Shields(records[i], g) && Doubted(items, records[i].id)
  }

  /** After `n` records: each is planned or reported, and the guards stand for exactly the doubted ones. */
  ghost predicate Shielded(records: seq<Record>, n: nat, plans: seq<Record>, guards: seq<Guard>, items: seq<Item>) {
    && (forall k :: 0 <= k < |items| && !Unharmed(items[k]) ==> GuardFor(records, guards, items[k].id))
    && (forall g :: g in guards ==> DoubtFor(records, items, g))
    && (forall i :: 0 <= i < n && i < |records| ==> records[i] in plans || Listed(items, records[i].id))
    && (forall i, k :: 0 <= i < |records| && 0 <= k < |items| && items[k].id == records[i].id ==>
                         Judged(records[i], items[k]))
  }

  lemma ShieldStart(records: seq<Record>)
    ensures Shielded(records, 0, [], [], [])
  {}

  lemma ShieldPlan(records: seq<Record>, n: nat, plans: seq<Record>, guards: seq<Guard>, items: seq<Item>)
    requires n < |records| && Shielded(records, n, plans, guards, items)
    ensures Shielded(records, n + 1, plans + [records[n]], guards, items)
  {
    hide GuardFor, DoubtFor, Listed, Judged;
    assert records[n] in plans + [records[n]];
  }

  lemma DoubtedMore(items: seq<Item>, item: Item, id: string)
    ensures Doubted(items, id) ==> Doubted(items + [item], id)
    ensures Listed(items, id) ==> Listed(items + [item], id)
    ensures item.id == id ==> Listed(items + [item], id) && (!Unharmed(item) ==> Doubted(items + [item], id))
  {
    var more := items + [item];
    assert more[|items|] == item;
    if Doubted(items, id) {
      var k :| 0 <= k < |items| && items[k].id == id && !Unharmed(items[k]);
      assert more[k] == items[k];
    }
    if Listed(items, id) {
      var k :| 0 <= k < |items| && items[k].id == id;
      assert more[k] == items[k];
    }
  }

  lemma GuardedMore(records: seq<Record>, guards: seq<Guard>, all: seq<Guard>, id: string)
    requires GuardFor(records, guards, id) && forall g :: g in guards ==> g in all
    ensures GuardFor(records, all, id)
  {
    var i, g :| 0 <= i < |records| && records[i].id == id && g in guards && Shields(records[i], g);
    assert g in all;
  }

  lemma DoubtStays(records: seq<Record>, items: seq<Item>, item: Item, g: Guard)
    requires DoubtFor(records, items, g)
    ensures DoubtFor(records, items + [item], g)
  {
    hide Doubted;
    var i :| 0 <= i < |records| && Shields(records[i], g) && Doubted(items, records[i].id);
    DoubtedMore(items, item, records[i].id);
  }

  lemma ShieldOutcome(records: seq<Record>, n: nat, plans: seq<Record>, guards: seq<Guard>, items: seq<Item>,
                      v: Verdict)
    requires n < |records| && DistinctRecords(records) && Shielded(records, n, plans, guards, items)
    requires v.Outcome? && v.item.id == records[n].id && GuardFits(records[n], v) && Judged(records[n], v.item)
    ensures Shielded(records, n + 1, plans, if v.guard.Some? then guards + [v.guard.value] else guards,
                     items + [v.item])
  {
    hide GuardFor, DoubtFor, Listed, Judged, Doubted;
    var more, all := items + [v.item], if v.guard.Some? then guards + [v.guard.value] else guards;
    forall k | 0 <= k < |more| && !Unharmed(more[k]) ensures GuardFor(records, all, more[k].id) {
      if k < |items| { GuardedMore(records, guards, all, items[k].id); } else { NewGuard(records, n, all, v); }
    }
    forall g | g in all ensures DoubtFor(records, more, g) {
      if g in guards { DoubtStays(records, items, v.item, g); } else { NewDoubt(records, n, items, v); }
    }
    forall i | 0 <= i < n + 1 ensures records[i] in plans || Listed(more, records[i].id) {
      DoubtedMore(items, v.item, records[i].id);
    }
    forall i, k | 0 <= i < |records| && 0 <= k < |more| && more[k].id == records[i].id
      ensures Judged(records[i], more[k])
    {
      if k < |items| { assert more[k] == items[k]; } else { assert i == n; }
    }
  }

  lemma NewGuard(records: seq<Record>, n: nat, all: seq<Guard>, v: Verdict)
    requires n < |records| && v.Outcome? && v.item.id == records[n].id && v.guard.Some? && v.guard.value in all
    requires Shields(records[n], v.guard.value)
    ensures GuardFor(records, all, v.item.id)
  {}

  lemma NewDoubt(records: seq<Record>, n: nat, items: seq<Item>, v: Verdict)
    requires n < |records| && v.Outcome? && v.item.id == records[n].id && !Unharmed(v.item) && v.guard.Some?
    requires Shields(records[n], v.guard.value)
    ensures DoubtFor(records, items + [v.item], v.guard.value)
  {
    DoubtedMore(items, v.item, records[n].id);
  }

  // ---- the removal set ----

  /** A record the attempt can neither remove nor, by now, count as reclaimed. */
  predicate Spared(tree: Tree, journal: Journal, r: Record) {
    !Plannable(tree, r) && !(r.owned && r.id in journal && journal[r.id].phase.Reclaimed?)
  }

  /** The results speak against exactly the spared records. */
  ghost predicate Agreed(tree: Tree, journal: Journal, records: seq<Record>, items: seq<Item>) {
    forall j :: 0 <= j < |records| ==> (Doubted(items, records[j].id) <==> Spared(tree, journal, records[j]))
  }

  lemma ResultsAgree(tree: Tree, journal: Journal, records: seq<Record>, plans: seq<Record>, guards: seq<Guard>,
                     items: seq<Item>)
    requires Shielded(records, |records|, plans, guards, items) && AllTold(journal, records, items)
    requires forall r :: r in plans ==> Plannable(tree, r) && !Listed(items, r.id)
    requires forall r :: r in records && Plannable(tree, r) ==> r in plans
    ensures Agreed(tree, journal, records, items)
  {
    hide GuardFor, DoubtFor, Plannable, Judged, Unharmed;
    forall j | 0 <= j < |records| ensures Doubted(items, records[j].id) <==> Spared(tree, journal, records[j]) {
      assert records[j] in plans || Listed(items, records[j].id);
      if k :| 0 <= k < |items| && items[k].id == records[j].id { assert Told(records[j], items[k], journal); }
    }
  }

  /** A plan is barred by a spared record at or below its path or, without a path, by one of its session. */
  ghost predicate Barred(tree: Tree, first: Journal, last: Journal, r: Record)
    requires IsPlan(r)
  {
    exists x :: x in first && Spared(tree, last, first[x]) && Blocks(Guard(GuardPath(first[x]), first[x]), r)
  }

  /** A directory claim recovery may neither remove nor count as removed. */
  predicate ProtectedClaim(tree: Tree, r: Record) {
    IsClaim(r) && r.identity.Place? && !Plannable(tree, r) && !(r.owned && r.phase.Reclaimed?)
  }

  ghost predicate Grouped(groups: seq<Group>, r: Record) {
    exists i :: 0 <= i < |groups| && Holds(groups[i], r)
  }

  /** A root keeps clear of a spared record: not at or above its path and, without a path, not of its session nor the
      controller's. */
  predicate KeepsClear(root: Record, q: Record)
    requires IsPlan(root)
  {
    match GuardPath(q)
    case Some(path) => !(root.identity.path <= path)
    case None => root.session != q.session && root.session != "controller"
  }

  /** What is planned for removal from the journal `first`, with what the review left in `last`: every plan no spared
      record bars is in exactly one group, roots are outermost and keep clear of everything spared. */
  ghost predicate RemovalSafe(tree: Tree, first: Journal, last: Journal, groups: seq<Group>) {
    && (forall i :: 0 <= i < |groups| ==> ProperGroup(groups[i]))
    && (forall x :: x in first && Plannable(tree, first[x]) && IsPlan(first[x]) ==>
                      (Grouped(groups, first[x]) <==> !Barred(tree, first, last, first[x])))
    && (forall i, r :: 0 <= i < |groups| && Holds(groups[i], r) ==>
                         r.id in first && first[r.id] == r && Plannable(tree, r))
    && (forall i, j, r :: 0 <= i < j < |groups| && Holds(groups[i], r) ==> !Holds(groups[j], r))
    && (forall i, j :: 0 <= i < |groups| && 0 <= j < |groups| ==>
                         !(groups[i].root.identity.path < groups[j].root.identity.path))
    && (forall i, x :: 0 <= i < |groups| && x in first && Spared(tree, last, first[x]) ==>
                         KeepsClear(groups[i].root, first[x]))
    && (forall x :: x in first && ProtectedClaim(tree, first[x]) ==> Spared(tree, last, first[x]))
  }

  lemma BarredIsBlocked(tree: Tree, first: Journal, last: Journal, records: seq<Record>, plans: seq<Record>,
                        guards: seq<Guard>, items: seq<Item>, r: Record)
    requires Snapshot(first, records) && Shielded(records, |records|, plans, guards, items)
    requires Agreed(tree, last, records, items) && IsPlan(r) && Barred(tree, first, last, r)
    ensures exists g :: g in guards && Blocks(g, r)
  {
    hide Judged, Listed, DoubtFor, GuardPath, Spared, Unharmed;
    var x :| x in first && Spared(tree, last, first[x]) && Blocks(Guard(GuardPath(first[x]), first[x]), r);
    var i :| 0 <= i < |records| && records[i] == first[x];
    var k :| 0 <= k < |items| && items[k].id == records[i].id && !Unharmed(items[k]);
    assert GuardFor(records, guards, items[k].id);
    var j, g :| 0 <= j < |records| && records[j].id == items[k].id && g in guards && Shields(records[j], g);
    assert i == j;
    assert Blocks(g, r);
  }

  lemma BlockedIsBarred(tree: Tree, first: Journal, last: Journal, records: seq<Record>, plans: seq<Record>,
                        guards: seq<Guard>, items: seq<Item>, r: Record, g: Guard)
    requires Snapshot(first, records) && Shielded(records, |records|, plans, guards, items)
    requires Agreed(tree, last, records, items) && IsPlan(r) && g in guards && Blocks(g, r)
    ensures Barred(tree, first, last, r)
  {
    hide Judged, Listed, GuardFor, Doubted, GuardPath, Spared;
    assert DoubtFor(records, items, g);
    var i :| 0 <= i < |records| && Shields(records[i], g) && Doubted(items, records[i].id);
    assert first[records[i].id] == records[i];
    assert Blocks(Guard(GuardPath(records[i]), records[i]), r);
  }

  /** The guards block exactly what the spared records bar. */
  lemma BlockedWhenBarred(tree: Tree, first: Journal, last: Journal, records: seq<Record>, plans: seq<Record>,
                          guards: seq<Guard>, items: seq<Item>, r: Record)
    requires Snapshot(first, records) && Shielded(records, |records|, plans, guards, items)
    requires Agreed(tree, last, records, items) && IsPlan(r)
    ensures (exists g :: g in guards && Blocks(g, r)) <==> Barred(tree, first, last, r)
  {
    hide Shielded, Snapshot, Barred, Blocks, Agreed;
    if Barred(tree, first, last, r) { BarredIsBlocked(tree, first, last, records, plans, guards, items, r); }
    if g :| g in guards && Blocks(g, r) {
      BlockedIsBarred(tree, first, last, records, plans, guards, items, r, g);
    }
  }

  lemma ClaimSpared(tree: Tree, last: Journal, records: seq<Record>, plans: seq<Record>, guards: seq<Guard>,
                    items: seq<Item>, j: nat)
    requires Shielded(records, |records|, plans, guards, items) && j < |records| && ProtectedClaim(tree, records[j])
    requires Agreed(tree, last, records, items) && forall r :: r in plans ==> Plannable(tree, r)
    ensures Spared(tree, last, records[j])
  {
    hide GuardFor, DoubtFor, Plannable;
    assert records[j] !in plans;
    var k :| 0 <= k < |items| && items[k].id == records[j].id;
    assert Judged(records[j], items[k]);
    assert Doubted(items, records[j].id);
  }

  lemma PlanGrouped(safe: seq<Record>, groups: seq<Group>, r: Record)
    requires Grouping(safe, groups)
    ensures r in safe <==> Grouped(groups, r)
  {
    if r in safe {
      var g :| g in groups && Holds(g, r);
      var i :| 0 <= i < |groups| && groups[i] == g;
    }
    if i :| 0 <= i < |groups| && Holds(groups[i], r) { assert groups[i] in groups; }
  }

  lemma SafePlan(tree: Tree, first: Journal, records: seq<Record>, plans: seq<Record>, guards: seq<Guard>,
                 safe: seq<Record>, r: Record)
    requires Snapshot(first, records) && Unblocked(plans, guards, safe) && r in safe
    requires forall r :: r in plans ==> r in records && Plannable(tree, r)
    ensures r.id in first && first[r.id] == r && Plannable(tree, r) && IsPlan(r)
    ensures forall g :: g in guards ==> !Blocks(g, r)
  {
    hide Plannable, DistinctRecords;
    assert r in records;
    var j :| 0 <= j < |records| && records[j] == r;
  }

  /** Everything the passes leave behind. */
  ghost predicate Passed(tree: Tree, first: Journal, last: Journal, records: seq<Record>, plans: seq<Record>,
                         guards: seq<Guard>, items: seq<Item>, safe: seq<Record>) {
    && Snapshot(first, records) && Shielded(records, |records|, plans, guards, items)
    && Agreed(tree, last, records, items) && Unblocked(plans, guards, safe)
    && (forall r :: r in plans ==> r in records && Plannable(tree, r))
    && (forall r :: r in records && Plannable(tree, r) ==> r in plans)
  }

  lemma PlanUnlessBarred(tree: Tree, first: Journal, last: Journal, records: seq<Record>, plans: seq<Record>,
                         guards: seq<Guard>, items: seq<Item>, safe: seq<Record>, x: string)
    requires Passed(tree, first, last, records, plans, guards, items, safe)
    requires x in first && Plannable(tree, first[x]) && IsPlan(first[x])
    ensures first[x] in safe <==> !Barred(tree, first, last, first[x])
  {
    hide Shielded, Plannable, Barred, Agreed, Unblocked, Snapshot, Blocks;
    BlockedWhenBarred(tree, first, last, records, plans, guards, items, first[x]);
    SafeUnless(tree, first, records, plans, guards, safe, x);
  }

  lemma SafeClear(tree: Tree, first: Journal, last: Journal, records: seq<Record>, plans: seq<Record>,
                  guards: seq<Guard>, items: seq<Item>, safe: seq<Record>, r: Record)
    requires Passed(tree, first, last, records, plans, guards, items, safe) && r in safe
    ensures r.id in first && first[r.id] == r && Plannable(tree, r) && IsPlan(r)
    ensures forall x :: x in first && Spared(tree, last, first[x]) ==> KeepsClear(r, first[x])
  {
    hide Shielded, Plannable, Barred, Agreed, Unblocked, Snapshot, Spared, KeepsClear, Blocks;
    SafePlan(tree, first, records, plans, guards, safe, r);
    BlockedWhenBarred(tree, first, last, records, plans, guards, items, r);
    forall x | x in first && Spared(tree, last, first[x]) ensures KeepsClear(r, first[x]) {
      UnbarredClear(tree, first, last, r, x);
    }
  }

  lemma ProtectedSpared(tree: Tree, first: Journal, last: Journal, records: seq<Record>, plans: seq<Record>,
                        guards: seq<Guard>, items: seq<Item>, safe: seq<Record>, x: string)
    requires Passed(tree, first, last, records, plans, guards, items, safe)
    requires x in first && ProtectedClaim(tree, first[x])
    ensures Spared(tree, last, first[x])
  {
    hide Shielded, Plannable, Agreed, Unblocked, Snapshot, Spared, ProtectedClaim;
    var j := RecordAt(first, records, x);
    ClaimSpared(tree, last, records, plans, guards, items, j);
  }

  /** What the three passes plan for removal, over the whole journal. */
  lemma RemovalSet(tree: Tree, first: Journal, last: Journal, records: seq<Record>, plans: seq<Record>,
                   guards: seq<Guard>, items: seq<Item>, safe: seq<Record>, groups: seq<Group>)
    requires Passed(tree, first, last, records, plans, guards, items, safe) && Grouping(safe, groups)
    ensures RemovalSafe(tree, first, last, groups)
  {
    hide Passed, Plannable, Barred, Spared, ProtectedClaim, Grouping, Grouped, ProperGroup, KeepsClear, Holds;
    GroupingParts(safe, groups);
    forall i, r | 0 <= i < |groups| && Holds(groups[i], r)
      ensures r.id in first && first[r.id] == r && Plannable(tree, r)
    {
      PlanGrouped(safe, groups, r);
      SafeClear(tree, first, last, records, plans, guards, items, safe, r);
    }
    forall x | x in first && Plannable(tree, first[x]) && IsPlan(first[x])
      ensures Grouped(groups, first[x]) <==> !Barred(tree, first, last, first[x])
    {
      PlanGrouped(safe, groups, first[x]);
      PlanUnlessBarred(tree, first, last, records, plans, guards, items, safe, x);
    }
    forall i, x | 0 <= i < |groups| && x in first && Spared(tree, last, first[x])
      ensures KeepsClear(groups[i].root, first[x])
    {
      PlanGrouped(safe, groups, groups[i].root);
      SafeClear(tree, first, last, records, plans, guards, items, safe, groups[i].root);
    }
    forall x | x in first && ProtectedClaim(tree, first[x]) ensures Spared(tree, last, first[x]) {
      ProtectedSpared(tree, first, last, records, plans, guards, items, safe, x);
    }
  }

  lemma GroupingParts(safe: seq<Record>, groups: seq<Group>)
    requires Grouping(safe, groups)
    ensures forall i :: 0 <= i < |groups| ==>
              ProperGroup(groups[i]) && IsPlan(groups[i].root) && Holds(groups[i], groups[i].root)
    ensures forall i, r :: 0 <= i < |groups| && Holds(groups[i], r) ==> Grouped(groups, r)
    ensures forall i, j, r :: 0 <= i < j < |groups| && Holds(groups[i], r) ==> !Holds(groups[j], r)
    ensures forall i, j :: 0 <= i < |groups| && 0 <= j < |groups| ==>
                             !(groups[i].root.identity.path < groups[j].root.identity.path)
  {
    forall i, j | 0 <= i < |groups| && 0 <= j < |groups|
      ensures ProperGroup(groups[i]) && ProperGroup(groups[j]) && !Contains(groups[i], groups[j].root)
    {
      assert groups[i] in groups && groups[j] in groups;
    }
  }

  lemma RecordAt(first: Journal, records: seq<Record>, x: string) returns (j: nat)
    requires Snapshot(first, records) && x in first
    ensures j < |records| && records[j] == first[x]
  {
    j :| 0 <= j < |records| && records[j] == first[x];
  }

  lemma SafeUnless(tree: Tree, first: Journal, records: seq<Record>, plans: seq<Record>, guards: seq<Guard>,
                   safe: seq<Record>, x: string)
    requires Snapshot(first, records) && Unblocked(plans, guards, safe) && x in first && IsPlan(first[x])
    requires Plannable(tree, first[x]) && forall r :: r in records && Plannable(tree, r) ==> r in plans
    ensures first[x] in safe <==> !exists g :: g in guards && Blocks(g, first[x])
  {
    hide Plannable, DistinctRecords;
    assert first[x] in plans;
  }

  lemma UnbarredClear(tree: Tree, first: Journal, last: Journal, root: Record, x: string)
    requires IsPlan(root) && !Barred(tree, first, last, root) && x in first && Spared(tree, last, first[x])
    ensures KeepsClear(root, first[x])
  {
    assert !Blocks(Guard(GuardPath(first[x]), first[x]), root);
  }

  /** Once the review is over, changing the plans' records spares nothing more and nothing less. */
  lemma SparedSame(tree: Tree, journal: Journal, next: Journal, records: seq<Record>, plans: seq<Record>,
                   items: seq<Item>)
    requires Agreed(tree, journal, records, items) && DistinctRecords(records) && TouchesPlans(journal, next, plans)
    requires forall r :: r in plans ==> r in records && Plannable(tree, r)
    requires forall i :: 0 <= i < |records| ==> records[i].id in journal
    ensures Agreed(tree, next, records, items)
  {
    hide Plannable, Doubted;
    forall j | 0 <= j < |records| && !Plannable(tree, records[j])
      ensures next[records[j].id] == journal[records[j].id]
    {
      forall r | r in plans ensures r.id != records[j].id {
        var i :| 0 <= i < |records| && records[i] == r;
      }
    }
  }

  /** Only the records of plans differ. */
  ghost predicate TouchesPlans(journal: Journal, next: Journal, plans: seq<Record>) {
    && journal.Keys == next.Keys
    && forall x :: x in journal && (forall r :: r in plans ==> r.id != x) ==> next[x] == journal[x]
  }

  lemma TouchesPlan(first: Journal, journal: Journal, next: Journal, plans: seq<Record>, i: nat)
    requires TouchesPlans(first, journal, plans) && i < |plans| && Touches(journal, next, plans[i].id)
    ensures TouchesPlans(first, next, plans)
  {
    assert plans[i] in plans;
  }

  // ---- below a protected claim ----

  /** A claim of another owner, and one of ours inside its directory. */
  function OuterClaim(): Record {
    Record("p", "s", Filesystem, false, Active, Place(["resources", "a"], Stamp(1, 3, "t")), false, false, "c", "boot",
           None, 0, false, false)
  }

  function InnerClaim(): Record {
    Record("r", "s", Filesystem, false, Active, Place(["resources", "a", "b"], Stamp(1, 4, "u")), false, true, "c",
           "boot", None, 0, false, false)
  }

  function NestedTree(): Tree {
    map[["resources"] := Dir(Stamp(1, 1, ""), 0), ["quarantine"] := Dir(Stamp(1, 2, ""), 0),
        ["resources", "a"] := Dir(Stamp(1, 3, "t"), 0), ["resources", "a", "b"] := Dir(Stamp(1, 4, "u"), 0)]
  }

  function NestedJournal(): Journal {
    map["p" := OuterClaim(), "r" := InnerClaim()]
  }

  lemma NestedTreeHangs()
    ensures WellFormed(NestedTree()) && QuarantineOpen(NestedTree()) && JournalOk(NestedJournal())
  {
    var tree := NestedTree();
    forall p, k | p in tree && 0 < k < |p| ensures p[..k] in tree && tree[p[..k]].Dir? {
      if |p| == 2 {
        assert p[..k] == ["resources"];
      } else {
        assert p == ["resources", "a", "b"];
        assert p[..k] == if k == 1 then ["resources"] else ["resources", "a"];
      }
    }
  }

  /** A protected claim holds back what lies above it, not what lies below: whatever becomes of the review, our claim
      inside the other owner's directory is planned for removal. */
  lemma BelowProtected(last: Journal, groups: seq<Group>)
    requires RemovalSafe(NestedTree(), NestedJournal(), last, groups)
    ensures WellFormed(NestedTree()) && QuarantineOpen(NestedTree()) && JournalOk(NestedJournal())
    ensures ProtectedClaim(NestedTree(), OuterClaim()) && OuterClaim().identity.path < InnerClaim().identity.path
    ensures Grouped(groups, InnerClaim())
  {
    NestedTreeHangs();
    hide WellFormed;
    var journal, r := NestedJournal(), InnerClaim();
    assert journal["r"] == r && Plannable(NestedTree(), r) && !Spared(NestedTree(), last, r);
    assert journal["p"] == OuterClaim() && GuardPath(OuterClaim()) == Some(OuterClaim().identity.path);
    assert !Barred(NestedTree(), journal, last, r);
  }
}
