/** The passes of one attempt over the whole journal, and what all groups together come to. */
module RecoveryPasses {
  import opened RecoveryTree
  import opened RecoveryRecords
  import opened RecoveryPlan
  import opened RecoveryRemoval
  import opened RecoverySafety
  import opened RecoveryGroup
  import opened RecoveryFleet
  import opened RecoveryResults
  import opened RecoveryGuards
  import opened RecoverySteps

  // ---- results of single records ----

  /** The process names a cgroup of the same owner and boot, by its exact identity. */
  predicate Linked(journal: Journal, r: Record, boot: string)
    requires r.identity.Covered?
  {
    && r.identity.cgroup in journal && !r.phase.AllocationIntent? && r.identity.started
    && r.boot == boot && r.identity.boot == boot
    && var group := journal[r.identity.cgroup];
       && group.kind.Cgroup? && group.grouped && group.owned
       && group.session == r.session && group.controller == r.controller && group.boot == r.boot
       && group.identity.Place? && r.identity.digest == (group.identity.path, group.identity.stamp)
  }

  /** The state of the first pass after `n` records. */
  ghost predicate FirstPass(journal: Journal, tree: Tree, records: seq<Record>, n: nat, open: set<Record>,
                            plans: seq<Record>, guards: seq<Guard>, items: seq<Item>)
  {
    && Accounted(journal, Set(records), open, items) && Reviewed(tree, records, n, open, plans)
    && Shielded(records, n, plans, guards, items) && AllTold(journal, records, items)
  }

  lemma PassStart(journal: Journal, tree: Tree, records: seq<Record>)
    requires Snapshot(journal, records)
    ensures FirstPass(journal, tree, records, 0, Set(records), [], [], []) && Advances(journal, journal)
  {
    AdvancesSelf(journal);
    ReviewStart(journal, tree, records);
    ShieldStart(records);
  }

  lemma PassDone(journal: Journal, tree: Tree, records: seq<Record>, open: set<Record>, plans: seq<Record>,
                 guards: seq<Guard>, items: seq<Item>)
    requires FirstPass(journal, tree, records, |records|, open, plans, guards, items)
    ensures Accounted(journal, Set(records), open, items) && Reviewed(tree, records, |records|, open, plans)
    ensures Shielded(records, |records|, plans, guards, items) && AllTold(journal, records, items)
    ensures forall r :: r in plans ==> Plannable(tree, r) && !Listed(items, r.id)
  {
    hide Shielded, AllTold, Plannable, AllReport, AllRecovered, AllCovered;
  }

  lemma PassPlan(journal: Journal, tree: Tree, records: seq<Record>, i: nat, open: set<Record>, plans: seq<Record>,
                 guards: seq<Guard>, items: seq<Item>)
    requires i < |records| && FirstPass(journal, tree, records, i, open, plans, guards, items)
    requires Plannable(tree, records[i])
    ensures FirstPass(journal, tree, records, i + 1, open, plans + [records[i]], guards, items)
  {
    hide Accounted, Reviewed, Shielded, AllTold;
    ReviewPlan(tree, records, i, open, plans);
    ShieldPlan(records, i, plans, guards, items);
  }

  lemma PassOutcome(journal: Journal, next: Journal, tree: Tree, records: seq<Record>, i: nat, open: set<Record>,
                    plans: seq<Record>, guards: seq<Guard>, items: seq<Item>, v: Verdict)
    requires i < |records| && FirstPass(journal, tree, records, i, open, plans, guards, items) && records[i] in open
    requires Stepped(journal, next, records[i].id) && v.Outcome? && GuardFits(records[i], v)
    requires Reports(records[i], v.item, next)
    requires Judged(records[i], v.item) && Told(records[i], v.item, next) && DistinctRecords(records)
    ensures FirstPass(next, tree, records, i + 1, open - {records[i]}, plans, if v.guard.Some?
                      then guards + [v.guard.value] else guards, items + [v.item])
  {
    assert !Listed(items, records[i].id);
    hide Accounted, Reviewed, Shielded, GuardFits, Judged, DistinctRecords, AllTold, Told, Listed;
    ToldMore(journal, next, records, i, items, v.item);
    AccountOne(journal, next, Set(records), open, items, records[i], v.item);
    ReviewOutcome(tree, records, i, open, plans);
    ShieldOutcome(records, i, plans, guards, items, v);
  }

  /** A claim to clean up is planned; a reclaimed record changes nothing. */
  lemma PassNext(journal: Journal, tree: Tree, records: seq<Record>, i: nat, open: set<Record>,
                 plans: seq<Record>, guards: seq<Guard>, items: seq<Item>)
    requires i < |records| && JournalOk(journal) && FirstPass(journal, tree, records, i, open, plans, guards, items)
    ensures records[i].id in journal && journal[records[i].id] == records[i] && Publishable(records[i])
    ensures records[i] in open
    ensures Fleet(journal, tree) ==> Plannable(tree, records[i]) || (records[i].owned && records[i].phase.Reclaimed?)
  {
    hide Locate, GroupState, DistinctPlaces, WellFormed, HasResult, AllReport, AllRecovered, DistinctItems, Unreported;
    if Fleet(journal, tree) && !(records[i].owned && records[i].phase.Reclaimed?) {
      ClaimLocated(journal, tree, records[i].id);
    }
  }

  lemma RecordsMovable(journal: Journal, records: seq<Record>)
    requires Snapshot(journal, records)
    ensures AllMovable(journal) ==>
              forall i :: 0 <= i < |records| ==> Terminal(records[i].phase) || Movable(records[i])
  {
    hide Movable;
    forall i | AllMovable(journal) && 0 <= i < |records| ensures Terminal(records[i].phase) || Movable(records[i]) {
      assert journal[records[i].id] == records[i];
    }
  }

  lemma PlansMovable(journal: Journal, tree: Tree, records: seq<Record>, plans: seq<Record>)
    requires Snapshot(journal, records) && forall r :: r in plans ==> r in records && Plannable(tree, r)
    ensures AllMovable(journal) ==> forall r :: r in plans ==> Movable(r)
  {
    hide Movable;
    RecordsMovable(journal, records);
    forall r | AllMovable(journal) && r in plans ensures Movable(r) {
      var i :| 0 <= i < |records| && records[i] == r;
    }
  }

  lemma ReviewStepped(first: Journal, journal: Journal, next: Journal, id: string)
    requires Advances(first, journal) && Stepped(journal, next, id)
    ensures Advances(first, next) && Advances(journal, next)
  {
    AdvancesChain(first, journal, next);
  }

  // ---- the second pass ----

  /** Of the first `n` plans, `safe` holds exactly those no guard blocks. */
  ghost predicate Sifted(plans: seq<Record>, guards: seq<Guard>, n: nat, safe: seq<Record>)
    requires AllPlans(plans)
  {
    && n <= |plans| && AllPlans(safe)
    && (forall r :: r in safe ==> r in plans[..n] && Free(guards, r))
    && (forall i :: 0 <= i < n && Free(guards, plans[i]) ==> plans[i] in safe)
  }

  ghost predicate Free(guards: seq<Guard>, r: Record)
    requires IsPlan(r)
  {
    forall g :: g in guards ==> !Blocks(g, r)
  }

  lemma BlockersThere(guards: seq<Guard>, r: Record)
    requires IsPlan(r) && Blockers(guards, r) != []
    ensures guards != [] && !Free(guards, r)
  {
    var g := Blockers(guards, r)[0];
    assert g in Blockers(guards, r);
  }

  lemma PlansUntouched(journal: Journal, plans: seq<Record>)
    ensures TouchesPlans(journal, journal, plans)
  {}

  lemma HoldStepped(first: Journal, journal: Journal, next: Journal, plans: seq<Record>, i: nat)
    requires TouchesPlans(first, journal, plans) && i < |plans| && Stepped(journal, next, plans[i].id)
    ensures TouchesPlans(first, next, plans)
  {
    TouchesPlan(first, journal, next, plans, i);
  }

  lemma AgreedStill(tree: Tree, first: Journal, journal: Journal, next: Journal, records: seq<Record>,
                    plans: seq<Record>, items: seq<Item>)
    requires Snapshot(first, records) && Advances(first, journal) && Agreed(tree, journal, records, items)
    requires TouchesPlans(journal, next, plans) && forall r :: r in plans ==> r in records && Plannable(tree, r)
    ensures Agreed(tree, next, records, items)
  {
    hide Agreed, TouchesPlans, Plannable;
    SparedSame(tree, journal, next, records, plans, items);
  }

  lemma SiftOut(plans: seq<Record>, guards: seq<Guard>, n: nat, safe: seq<Record>)
    requires AllPlans(plans) && n < |plans| && Sifted(plans, guards, n, safe) && !Free(guards, plans[n])
    ensures Sifted(plans, guards, n + 1, safe)
  {
    assert plans[..n + 1] == plans[..n] + [plans[n]];
  }

  lemma SiftIn(plans: seq<Record>, guards: seq<Guard>, n: nat, safe: seq<Record>)
    requires AllPlans(plans) && n < |plans| && Sifted(plans, guards, n, safe) && Blockers(guards, plans[n]) == []
    ensures Sifted(plans, guards, n + 1, safe + [plans[n]])
  {
    assert plans[..n + 1] == plans[..n] + [plans[n]];
    NoBlockers(guards, plans[n]);
  }

  lemma NoBlockers(guards: seq<Guard>, r: Record)
    requires IsPlan(r) && Blockers(guards, r) == []
    ensures Free(guards, r)
  {
    var bs := Blockers(guards, r);
    assert forall g :: g in bs <==> g in guards && Blocks(g, r);
  }

  lemma SiftDone(journal: Journal, tree: Tree, plans: seq<Record>, guards: seq<Guard>, open: set<Record>,
                 safe: seq<Record>)
    requires AllPlans(plans) && Sifted(plans, guards, |plans|, safe) && Reviewed(tree, plans, |plans|, open, safe)
    ensures open == Set(safe) && Unblocked(plans, guards, safe) && Distinct(safe)
    ensures forall r :: r in safe ==> Plannable(tree, r)
    ensures plans[..|plans|] == plans
  {
    assert plans[..|plans|] == plans;
    forall r | r in plans && Free(guards, r) ensures r in safe {
      var i :| 0 <= i < |plans| && plans[i] == r;
    }
    forall r | IsPlan(r) && r in plans && (forall g :: g in guards ==> !Blocks(g, r)) ensures r in safe {
      assert Free(guards, r);
    }
  }

  lemma HoldNext(journal: Journal, tree: Tree, all: set<Record>, plans: seq<Record>, i: nat, open: set<Record>,
                 safe: seq<Record>, items: seq<Item>)
    requires i < |plans| && Accounted(journal, all, open, items) && Reviewed(tree, plans, i, open, safe)
    ensures plans[i] in open && plans[i].id in journal && journal[plans[i].id] == plans[i]
    ensures Plannable(tree, plans[i]) ==> !Terminal(plans[i].phase)
  {}

  // ---- the last pass ----

  function Held(g: Group): (s: set<Record>)
    ensures forall r :: r in s <==> Holds(g, r)
  {
    {g.root} + set r | r in g.members
  }

  ghost predicate OpenGroup(g: Group) {
    ProperGroup(g) && forall r :: Holds(g, r) ==> InResources(r.identity.path) && !Terminal(r.phase)
  }

  ghost predicate OpenGroups(groups: seq<Group>) {
    && (forall i :: 0 <= i < |groups| ==> OpenGroup(groups[i]))
    && (forall i, j :: 0 <= i < j < |groups| ==> Disjoint(groups[i], groups[j]))
  }

  /** The open records are those of the groups from `k` on. */
  ghost predicate Remain(groups: seq<Group>, k: nat, open: set<Record>) {
    && k <= |groups| && OpenGroups(groups)
    && (forall i :: k <= i < |groups| ==> Held(groups[i]) <= open)
    && (forall r :: r in open ==> HeldFrom(groups, k, r))
  }

  ghost predicate HeldFrom(groups: seq<Group>, k: nat, r: Record) {
    exists i :: k <= i < |groups| && Holds(groups[i], r)
  }

  lemma SafeGroup(safe: seq<Record>, groups: seq<Group>, g: Group)
    requires Grouping(safe, groups) && g in groups
    requires forall r :: r in safe ==> IsPlan(r) && InResources(r.identity.path) && !Terminal(r.phase)
    ensures OpenGroup(g) && forall r :: Holds(g, r) ==> r in safe
  {}

  lemma SafeHeld(safe: seq<Record>, groups: seq<Group>, r: Record)
    requires Grouping(safe, groups) && r in safe
    ensures HeldFrom(groups, 0, r)
  {
    var g :| g in groups && Holds(g, r);
    var i :| 0 <= i < |groups| && groups[i] == g;
  }

  lemma RemainStart(safe: seq<Record>, groups: seq<Group>)
    requires Grouping(safe, groups)
    requires forall r :: r in safe ==> IsPlan(r) && InResources(r.identity.path) && !Terminal(r.phase)
    ensures Remain(groups, 0, Set(safe))
    ensures forall i :: 0 <= i < |groups| ==> ProperGroup(groups[i])
  {
    hide Grouping, Disjoint, Holds, HeldFrom, Held, ProperGroup;
    forall i, j | 0 <= i < j < |groups| ensures Disjoint(groups[i], groups[j]) {
      GroupsDisjoint(safe, groups, i, j);
    }
    forall i | 0 <= i < |groups|
      ensures OpenGroup(groups[i]) && ProperGroup(groups[i]) && Held(groups[i]) <= Set(safe)
    {
      SafeGroup(safe, groups, groups[i]);
    }
    forall r | r in Set(safe) ensures HeldFrom(groups, 0, r) {
      SafeHeld(safe, groups, r);
    }
  }

  lemma GroupsDisjoint(safe: seq<Record>, groups: seq<Group>, i: nat, j: nat)
    requires Grouping(safe, groups) && i < j < |groups|
    ensures Disjoint(groups[i], groups[j])
  {}

  lemma RemainNext(journal: Journal, all: set<Record>, groups: seq<Group>, k: nat, open: set<Record>, items: seq<Item>)
    requires k < |groups| && Remain(groups, k, open) && Accounted(journal, all, open, items)
    ensures ProperGroup(groups[k]) && Untouched(journal, groups[k])
    ensures forall r :: Holds(groups[k], r) ==> InResources(r.identity.path)
  {
    hide AllReport, HasResult, DistinctItems, Unreported;
  }

  lemma RemainDone(groups: seq<Group>, open: set<Record>, safe: seq<Record>)
    requires Remain(groups, |groups|, open)
    ensures open == {}
  {
    var n: nat := |groups|;
    assert forall r :: r in open ==> HeldFrom(groups, n, r);
  }

  lemma GroupAccounts(g: Group, added: seq<Item>, journal: Journal)
    requires ProperGroup(g) && DistinctIds(g) && Reported(g, added, journal) && g.root.id in journal
    ensures DistinctItems(added) && AllReport(Held(g), added, journal)
    ensures AllRecovered(added) ==> AllCovered(Held(g), added, journal)
  {
    assert Reports(g.root, added[0], journal);
    forall i | 0 <= i < |added| - 1 ensures Reports(g.members[i], added[i + 1], journal) {
      assert ClosedAs(g.members[i], added[i + 1], journal);
    }
    forall i | 0 <= i < |added| ensures ReportsOne(Held(g), added[i], journal) {
      if i > 0 { assert Reports(g.members[i - 1], added[i - 1 + 1], journal); }
    }
    if AllRecovered(added) {
      forall r | r in Held(g) ensures HasResult(r, added, journal) {
        if r != g.root {
          var i :| 0 <= i < |g.members| && g.members[i] == r;
          assert Reports(r, added[i + 1], journal);
        }
      }
    }
    DistinctAdded(g, added, journal);
  }

  lemma DistinctAdded(g: Group, added: seq<Item>, journal: Journal)
    requires ProperGroup(g) && DistinctIds(g) && Reported(g, added, journal)
    ensures DistinctItems(added)
  {
    forall i, j | 0 <= i < j < |added| ensures added[i].id != added[j].id {
      assert ClosedAs(g.members[j - 1], added[j - 1 + 1], journal);
      if i > 0 { assert ClosedAs(g.members[i - 1], added[i - 1 + 1], journal); }
    }
  }

  lemma OthersUntouched(journal: Journal, next: Journal, all: set<Record>, open: set<Record>, g: Group, r: Record)
    requires open <= all && OneRecordEach(all) && Standing(open, journal) && Held(g) <= open
    requires TouchesGroup(journal, next, g)
    requires r in open && r !in Held(g)
    ensures r.id in next && next[r.id] == journal[r.id]
  {}

  lemma RemainOn(journal: Journal, next: Journal, all: set<Record>, groups: seq<Group>, k: nat, open: set<Record>,
                 items: seq<Item>, added: seq<Item>)
    requires k < |groups| && Remain(groups, k, open) && Accounted(journal, all, open, items) && ProperGroup(groups[k])
    requires Untouched(journal, groups[k]) && Advances(journal, next) && TouchesGroup(journal, next, groups[k])
    requires Reported(groups[k], added, next)
    ensures Accounted(next, all, open - Held(groups[k]), items + added) && Remain(groups, k + 1, open - Held(groups[k]))
  {
    hide Accounted, Reported, TouchesGroup, Untouched, Advances, ProperGroup, OpenGroup, Held;
    RemainAccount(journal, next, all, open, items, groups[k], added);
    RemainLess(groups, k, open);
  }

  lemma RemainLess(groups: seq<Group>, k: nat, open: set<Record>)
    requires k < |groups| && Remain(groups, k, open)
    ensures Remain(groups, k + 1, open - Held(groups[k]))
  {
    hide OpenGroup, Held, Holds;
    var g := groups[k];
    forall i | k + 1 <= i < |groups| ensures Held(groups[i]) <= open - Held(g) {
      assert Disjoint(g, groups[i]);
    }
    forall r | r in open - Held(g) ensures HeldFrom(groups, k + 1, r) {
      assert HeldFrom(groups, k, r);
      var i :| k <= i < |groups| && Holds(groups[i], r);
    }
  }

  lemma RemainAccount(journal: Journal, next: Journal, all: set<Record>, open: set<Record>, items: seq<Item>, g: Group,
                      added: seq<Item>)
    requires Accounted(journal, all, open, items) && ProperGroup(g) && Held(g) <= open
    requires Untouched(journal, g) && Advances(journal, next) && TouchesGroup(journal, next, g)
    requires Reported(g, added, next)
    ensures Accounted(next, all, open - Held(g), items + added)
  {
    HeldDistinct(journal, g);
    forall r | r in open - Held(g) ensures r.id in next && next[r.id] == journal[r.id] {
      OthersUntouched(journal, next, all, open, g, r);
    }
    hide Accounted, TouchesGroup, Untouched, Reported, DistinctItems, AllReport, AllCovered, AllRecovered, Held;
    GroupAccounts(g, added, next);
    AccountMore(journal, next, all, open, items, Held(g), added);
  }

  lemma HeldDistinct(journal: Journal, g: Group)
    requires ProperGroup(g) && Untouched(journal, g)
    ensures DistinctIds(g) && g.root.id in journal
  {
    assert Holds(g, g.root);
    forall i | 0 <= i < |g.members| ensures Holds(g, g.members[i]) {}
  }

  // ---- the whole attempt ----

  ghost predicate RoomyFleet(journal: Journal, tree: Tree, uid: nat) {
    forall id :: IsTop(journal, id) ==> Roomy(journal[id], tree, uid)
  }

  /** Every open record can take `n` observations and the one that closes it. */
  ghost predicate Spare(journal: Journal, n: nat) {
    forall id :: id in journal ==> journal[id].phase.Reclaimed? || journal[id].observations + n < MAX_OBSERVATIONS
  }

  ghost predicate NotesGrow(journal: Journal, next: Journal) {
    && journal.Keys == next.Keys
    && forall id :: id in journal ==> next[id].phase.Reclaimed? || next[id].observations <= journal[id].observations + 1
  }

  lemma NotesSame(journal: Journal)
    ensures NotesGrow(journal, journal)
  {}

  lemma SpareLess(journal: Journal, next: Journal, n: nat)
    requires Spare(journal, n) && NotesGrow(journal, next) && Advances(journal, next) && n > 0
    ensures Spare(next, n - 1)
  {}

  ghost predicate AllEnded(journal: Journal) {
    forall id :: id in journal ==> journal[id].phase.Reclaimed?
  }

  /** Nothing is left at any claim's path, nor at the quarantine name of an outermost one. */
  ghost predicate EndedTrees(first: Journal, tree: Tree) {
    forall id :: id in first && Ready(first[id]) ==>
                   first[id].identity.path !in tree && (IsTop(first, id) ==> Own(id) !in tree)
  }

  ghost predicate GoneWhenRecorded(closures: seq<Closure>, r: Record)
    requires r.identity.Place?
  {
    exists c :: c in closures && c.record == r && Gone(r, c.tree)
  }

  lemma SnapshotAll(journal: Journal, records: seq<Record>)
    requires Snapshot(journal, records)
    ensures Set(records) == journal.Values
  {
    forall r | r in records ensures r in journal.Values {
      var i :| 0 <= i < |records| && records[i] == r;
    }
  }

  lemma SecondStart(journal: Journal, tree: Tree, all: set<Record>, records: seq<Record>, open: set<Record>,
                    plans: seq<Record>, items: seq<Item>)
    requires Accounted(journal, all, open, items) && Reviewed(tree, records, |records|, open, plans)
    ensures Reviewed(tree, plans, 0, open, []) && AllPlans(plans)
    ensures forall i :: 0 <= i < |plans| ==> Plannable(tree, plans[i])
    ensures forall r :: r in plans ==> r in all && Plannable(tree, r)
  {
    hide AllReport, HasResult, AllRecovered, DistinctItems, Unreported, Locate, Publishable;
    forall i | 0 <= i < |plans| ensures plans[i] in open && Plannable(tree, plans[i]) && IsPlan(plans[i]) {
      assert plans[i] in plans;
      PlannablePlan(tree, plans[i]);
    }
  }

  lemma PlannablePlan(tree: Tree, r: Record)
    requires Plannable(tree, r)
    ensures IsPlan(r) && InResources(r.identity.path) && !Terminal(r.phase)
  {}

  lemma PlannedAre(records: seq<Record>, plans: seq<Record>, tree: Tree)
    requires forall r :: r in plans ==> r in Set(records) && Plannable(tree, r)
    requires forall i :: 0 <= i < |records| && Plannable(tree, records[i]) ==> records[i] in plans
    ensures forall r :: r in plans ==> r in records && Plannable(tree, r)
    ensures forall r :: r in records && Plannable(tree, r) ==> r in plans
  {
    hide Plannable;
  }

  lemma ThirdStart(tree: Tree, safe: seq<Record>)
    requires forall r :: r in safe ==> Plannable(tree, r)
    ensures AllPlans(safe) && forall r :: r in safe ==> IsPlan(r) && InResources(r.identity.path) && !Terminal(r.phase)
  {
    forall r | r in safe ensures IsPlan(r) && InResources(r.identity.path) && !Terminal(r.phase) {
      PlannablePlan(tree, r);
    }
  }

  // ---- every group at once ----

  /** Two groups with nothing in common. */
  ghost predicate Foreign(g: Group, h: Group)
    requires ProperGroup(g) && ProperGroup(h)
  {
    && Apart(g.root.identity.path, h.root.identity.path)
    && forall r, s :: Holds(g, r) && Holds(h, s) ==> r.id != s.id
  }

  ghost predicate AllForeign(groups: seq<Group>) {
    && (forall i :: 0 <= i < |groups| ==> ProperGroup(groups[i]) && Ready(groups[i].root))
    && (forall i, j :: 0 <= i < |groups| && 0 <= j < |groups| && i != j ==> Foreign(groups[i], groups[j]))
  }

  ghost predicate Fate(start: Tree, journal: Journal, tree: Tree, g: Group, uid: nat)
    requires ProperGroup(g)
  {
    Ended(journal, tree, g) || Kept(start, journal, tree, g, uid) || Lost(start, tree, g.root)
  }

  /** Every group that was in order to begin with has ended, is kept, or has lost entries; and no root is recorded as
      reclaimed that held anything of another device or owner. */
  ghost predicate Fates(first: Journal, start: Tree, journal: Journal, tree: Tree, groups: seq<Group>, uid: nat) {
    forall i :: 0 <= i < |groups| ==>
      && ProperGroup(groups[i]) && (WholeGroup(first, start, groups[i]) ==> Fate(start, journal, tree, groups[i], uid))
      && ClosedOwn(start, journal, groups[i], uid)
  }

  ghost predicate ClosedOwn(start: Tree, journal: Journal, g: Group, uid: nat)
    requires ProperGroup(g)
  {
    g.root.id in journal && journal[g.root.id].phase.Reclaimed? ==> OwnTree(start, g.root, uid)
  }

  /** The claim's own directory is at its path or its quarantine name, and nowhere else. */
  ghost predicate Lodged(tree: Tree, r: Record)
    requires r.identity.Place?
  {
    OneName(tree) && (IsDir(tree, r.identity.path, r.identity.stamp) || IsDir(tree, Own(r.id), r.identity.stamp))
  }

  ghost predicate SamePlaces(start: Tree, tree: Tree, r: Record)
    requires r.identity.Place?
  {
    forall q :: r.identity.path <= q || Own(r.id) <= q ==>
                  (q in tree <==> q in start) && (q in start ==> tree[q] == start[q])
  }

  /** What the claim's directory held to begin with it still holds at its turn. */
  lemma OwnToBegin(start: Tree, tree: Tree, r: Record, uid: nat)
    requires r.identity.Place? && Lodged(start, r) && SamePlaces(start, tree, r) && OwnTree(tree, r, uid)
    ensures OwnTree(start, r, uid)
  {
    var home := if IsDir(start, r.identity.path, r.identity.stamp) then r.identity.path else Own(r.id);
    forall p, q | IsDir(start, p, r.identity.stamp) && q in start && p <= q
      ensures start[q].Device() == r.identity.stamp.device && start[q].uid == uid
    {
      assert p == home;
      assert IsDir(tree, home, r.identity.stamp);
    }
  }

  lemma PlannedLodged(tree: Tree, r: Record)
    requires Plannable(tree, r) && Tidy(tree, r) && OneName(tree)
    ensures Lodged(tree, r)
  {}

  ghost predicate AllTidy(tree: Tree, groups: seq<Group>) {
    forall i :: 0 <= i < |groups| ==> Tidy(tree, groups[i].root)
  }

  ghost predicate AllFit(groups: seq<Group>) {
    forall i :: 0 <= i < |groups| ==> Fit(groups[i])
  }

  ghost predicate AllWhole(journal: Journal, tree: Tree, groups: seq<Group>) {
    forall i :: 0 <= i < |groups| ==> ProperGroup(groups[i]) && WholeGroup(journal, tree, groups[i])
  }

  /** Before group `k`: of the groups in order to begin with, the earlier ones ended, are kept or lost entries; the
      later ones are as they were. */
  ghost predicate Underway(first: Journal, start: Tree, journal: Journal, tree: Tree, groups: seq<Group>, k: nat,
                           uid: nat) {
    && AllForeign(groups)
    && (forall i :: 0 <= i < |groups| ==> Lodged(start, groups[i].root))
    && (forall i :: k <= i < |groups| ==> Untouched(journal, groups[i]))
    && (forall i :: k <= i < |groups| ==> Tidy(tree, groups[i].root) && SamePlaces(start, tree, groups[i].root))
    && (forall i :: 0 <= i < k && i < |groups| ==> ClosedOwn(start, journal, groups[i], uid))
    && (forall i :: k <= i < |groups| && WholeGroup(first, start, groups[i]) ==>
                      Kept(start, journal, tree, groups[i], uid) && NoneGained(start, tree, groups[i].root))
    && (forall i :: 0 <= i < k && i < |groups| && WholeGroup(first, start, groups[i]) ==>
                      Fate(start, journal, tree, groups[i], uid))
  }

  lemma UnderwayStart(journal: Journal, tree: Tree, groups: seq<Group>, uid: nat)
    requires AllForeign(groups) && AllTidy(tree, groups)
    requires forall i :: 0 <= i < |groups| ==> Untouched(journal, groups[i]) && Lodged(tree, groups[i].root)
    ensures Underway(journal, tree, journal, tree, groups, 0, uid)
  {
    hide WholeGroup, Roomy, Foreign, Ready, Tidy, Lodged;
  }

  ghost predicate AllClearable(journal: Journal, tree: Tree, groups: seq<Group>, uid: nat) {
    forall i :: 0 <= i < |groups| ==>
                  ProperGroup(groups[i]) && WholeGroup(journal, tree, groups[i])
                  && Clearable(journal, tree, groups[i], uid)
  }

  /** Of the first `k` groups, those in order and within budget to begin with have ended. */
  ghost predicate DoneBefore(first: Journal, start: Tree, journal: Journal, tree: Tree, groups: seq<Group>, k: nat,
                             uid: nat) {
    forall i :: 0 <= i < k && i < |groups| ==>
      ProperGroup(groups[i])
      && (WholeGroup(first, start, groups[i]) && Clearable(first, start, groups[i], uid) ==>
            Ended(journal, tree, groups[i]))
  }

  ghost predicate DoneAll(first: Journal, start: Tree, journal: Journal, tree: Tree, groups: seq<Group>, uid: nat) {
    DoneBefore(first, start, journal, tree, groups, |groups|, uid)
  }

  ghost predicate AllGone(journal: Journal, tree: Tree, groups: seq<Group>) {
    forall i :: 0 <= i < |groups| ==> ProperGroup(groups[i]) && Ended(journal, tree, groups[i])
  }

  lemma NoneDone(journal: Journal, tree: Tree, groups: seq<Group>, uid: nat)
    ensures DoneBefore(journal, tree, journal, tree, groups, 0, uid)
  {}

  lemma ClearableDone(first: Journal, start: Tree, journal: Journal, tree: Tree, groups: seq<Group>, uid: nat)
    requires AllClearable(first, start, groups, uid) && DoneAll(first, start, journal, tree, groups, uid)
    ensures AllGone(journal, tree, groups)
  {
    hide WholeGroup, Clearable, Ended, ProperGroup;
  }

  lemma EnoughSame(tree: Tree, after: Tree, p: Path, device: nat, uid: nat)
    requires forall q :: p <= q ==> (q in after <==> q in tree) && (q in tree ==> after[q] == tree[q])
    requires Enough(tree, p, device, uid, 0, 0)
    ensures Enough(after, p, device, uid, 0, 0)
  {
    assert Under(after, p) == Under(tree, p);
  }

  /** The other group's members are not among the records this group changed. */
  lemma ForeignMembers(journal: Journal, tree: Tree, next: Journal, g: Group, h: Group)
    requires ProperGroup(g) && ProperGroup(h) && Foreign(g, h) && Untouched(journal, g)
    requires WholeGroup(journal, tree, h)
    requires TouchesGroup(journal, next, g) && Advances(journal, next)
    requires journal[h.root.id].identity == h.root.identity
    ensures OtherMembers(journal, next, journal[h.root.id])
  {
    hide GroupState;
    var top := journal[h.root.id];
    forall x | x in journal && (IsMember(journal[x], top) || IsMember(next[x], top)) ensures next[x] == journal[x] {
      ForeignPlace(journal, g, h.root.identity.path, x);
    }
  }

  lemma ForeignPlace(journal: Journal, g: Group, path: Path, x: string)
    requires ProperGroup(g) && Untouched(journal, g)
    requires Apart(g.root.identity.path, path) && x in journal && journal[x].identity.Place?
    requires path <= journal[x].identity.path
    ensures forall r :: Holds(g, r) ==> r.id != x
  {
    forall r | Holds(g, r) ensures r.id != x {
      Comparable(g.root.identity.path, path, journal[r.id].identity.path);
    }
  }

  lemma ForeignRoomy(tree: Tree, after: Tree, root: Record, top: Record, uid: nat)
    requires Ready(root) && Ready(top) && root.id != top.id && Apart(root.identity.path, top.identity.path)
    requires Elsewhere(tree, after, root)
    requires Roomy(top, tree, uid)
    ensures Roomy(top, after, uid)
  {
    SeparateDirs(tree, after, root, top, Own(top.id));
    var p := if Own(top.id) in tree then Own(top.id) else top.identity.path;
    forall q | p <= q ensures (q in after <==> q in tree) && (q in tree ==> after[q] == tree[q]) {
      SeparateDirs(tree, after, root, top, q);
    }
    hide Elsewhere, Ready;
    EnoughSame(tree, after, p, top.identity.stamp.device, uid);
  }

  lemma KeptFacts(start: Tree, journal: Journal, tree: Tree, g: Group, uid: nat)
    requires ProperGroup(g) && Kept(start, journal, tree, g, uid)
    ensures WholeGroup(journal, tree, g) && GroupState(journal, tree, g.root.id) && Ready(journal[g.root.id])
    ensures journal[g.root.id].identity == g.root.identity && journal[g.root.id].id == g.root.id && Holds(g, g.root)
    ensures Ready(g.root) && IsMember(journal[g.root.id], journal[g.root.id])
  {
    hide Roomy;
    assert Holds(g, g.root);
  }

  lemma ForeignKept(start: Tree, journal: Journal, tree: Tree, next: Journal, after: Tree, g: Group, h: Group, uid: nat)
    requires ProperGroup(g) && ProperGroup(h) && Foreign(g, h) && Untouched(journal, g) && Ready(g.root)
    requires Kept(start, journal, tree, h, uid)
    requires TouchesGroup(journal, next, g) && Advances(journal, next) && Elsewhere(tree, after, g.root)
    requires JournalOk(next) && WellFormed(after) && QuarantineOpen(after)
    ensures Kept(start, next, after, h, uid)
  {
    hide GroupState, Elsewhere, JournalOk, WellFormed, Ready, Roomy, Advances, IsMember, WholeGroup, OtherMembers,
         Untouched;
    assert Holds(g, g.root);
    KeptFacts(start, journal, tree, h, uid);
    ForeignMembers(journal, tree, next, g, h);
    SeparateKeeps(journal, tree, next, after, g.root, h.root.id);
    if Roomy(h.root, tree, uid) { ForeignRoomy(tree, after, g.root, h.root, uid); }
    ForeignWhole(journal, tree, next, after, h);
  }

  /** The members of a group another group's removal left alone are the same as before. */
  lemma ForeignWhole(journal: Journal, tree: Tree, next: Journal, after: Tree, h: Group)
    requires ProperGroup(h) && WholeGroup(journal, tree, h) && GroupState(next, after, h.root.id)
    requires journal.Keys == next.Keys && OtherMembers(journal, next, journal[h.root.id])
    requires Ready(journal[h.root.id]) && IsMember(journal[h.root.id], journal[h.root.id])
    ensures WholeGroup(next, after, h) && forall r :: Holds(h, r) ==> r.id in next && next[r.id] == journal[r.id]
  {
    hide GroupState, IsMember, Ready;
    assert next[h.root.id] == journal[h.root.id];
    forall id | id in next && IsMember(next[id], next[h.root.id]) ensures exists r :: Holds(h, r) && r.id == id {
      assert next[id] == journal[id];
    }
  }

  lemma ForeignEnded(journal: Journal, tree: Tree, next: Journal, after: Tree, g: Group, h: Group)
    requires ProperGroup(g) && ProperGroup(h) && Foreign(g, h) && Ended(journal, tree, h) && Ready(g.root)
    requires Ready(h.root)
    requires Advances(journal, next) && Elsewhere(tree, after, g.root)
    ensures Ended(next, after, h)
  {
    assert Holds(g, g.root) && Holds(h, h.root);
    OwnApart(g.root.id, h.root.id);
    assert Own(h.root.id)[0] != g.root.identity.path[0] && h.root.identity.path[0] != Own(g.root.id)[0];
  }

  lemma ForeignEntry(tree: Tree, after: Tree, root: Record, top: Record, s: Path)
    requires Ready(root) && Ready(top) && root.id != top.id && Apart(root.identity.path, top.identity.path)
    requires Elsewhere(tree, after, root)
    ensures HasEntry(after, top, s) <==> HasEntry(tree, top, s)
  {
    SeparateDirs(tree, after, root, top, top.identity.path + s);
    SeparateDirs(tree, after, root, top, Own(top.id) + s);
  }

  /** Another group's entries are neither gained nor lost. */
  lemma ForeignEntries(start: Tree, tree: Tree, after: Tree, g: Group, h: Group)
    requires ProperGroup(g) && ProperGroup(h) && Foreign(g, h) && Ready(g.root) && Ready(h.root)
    requires Elsewhere(tree, after, g.root)
    ensures NoneGained(start, tree, h.root) ==> NoneGained(start, after, h.root)
    ensures Lost(start, tree, h.root) ==> Lost(start, after, h.root)
  {
    assert Holds(g, g.root) && Holds(h, h.root);
    hide Elsewhere, Ready, HasEntry, ProperGroup;
    forall s: Path ensures HasEntry(after, h.root, s) <==> HasEntry(tree, h.root, s) {
      ForeignEntry(tree, after, g.root, h.root, s);
    }
    if Lost(start, tree, h.root) {
      var s: Path :| HasEntry(start, h.root, s) && !HasEntry(tree, h.root, s);
      assert !HasEntry(after, h.root, s);
    }
  }

  lemma KeptLater(start: Tree, journal: Journal, tree: Tree, next: Journal, after: Tree, g: Group, uid: nat)
    requires ProperGroup(g) && Kept(start, journal, tree, g, uid) && Kept(tree, next, after, g, uid)
    ensures Kept(start, next, after, g, uid)
  {
    hide WholeGroup, Roomy;
  }

  lemma ForeignFate(start: Tree, journal: Journal, tree: Tree, next: Journal, after: Tree, g: Group, h: Group, uid: nat)
    requires ProperGroup(g) && ProperGroup(h) && Foreign(g, h) && Ready(g.root) && Ready(h.root)
    requires Untouched(journal, g) && Fate(start, journal, tree, h, uid)
    requires TouchesGroup(journal, next, g) && Advances(journal, next) && Elsewhere(tree, after, g.root)
    requires JournalOk(next) && WellFormed(after) && QuarantineOpen(after)
    ensures Fate(start, next, after, h, uid)
  {
    hide Kept, Ended, Lost, Elsewhere, Advances, TouchesGroup, WellFormed, JournalOk, Foreign, ProperGroup, Ready,
         NoneGained, Untouched;
    if Ended(journal, tree, h) {
      ForeignEnded(journal, tree, next, after, g, h);
    } else if Kept(start, journal, tree, h, uid) {
      ForeignKept(start, journal, tree, next, after, g, h, uid);
    } else {
      ForeignEntries(start, tree, after, g, h);
    }
  }

  lemma ForeignTidy(tree: Tree, after: Tree, root: Record, top: Record)
    requires Ready(root) && Ready(top) && root.id != top.id && Apart(root.identity.path, top.identity.path)
    requires Elsewhere(tree, after, root) && Tidy(tree, top)
    ensures Tidy(after, top)
  {
    SeparateDirs(tree, after, root, top, top.identity.path);
  }

  lemma RootPlaced(g: Group)
    requires ProperGroup(g)
    ensures g.root.identity.Place?
  {}

  lemma ForeignPlaces(start: Tree, tree: Tree, after: Tree, root: Record, top: Record)
    requires Ready(root) && Ready(top) && root.id != top.id && Apart(root.identity.path, top.identity.path)
    requires Elsewhere(tree, after, root) && SamePlaces(start, tree, top)
    ensures SamePlaces(start, after, top)
  {
    forall q | top.identity.path <= q || Own(top.id) <= q
      ensures (q in after <==> q in tree) && (q in tree ==> after[q] == tree[q])
    {
      SeparateDirs(tree, after, root, top, q);
    }
  }

  lemma ForeignUntouched(journal: Journal, next: Journal, g: Group, h: Group)
    requires ProperGroup(g) && ProperGroup(h) && Foreign(g, h)
    requires TouchesGroup(journal, next, g) && Untouched(journal, h)
    ensures Untouched(next, h)
  {
    hide ProperGroup;
  }

  lemma ForeignClosed(start: Tree, journal: Journal, next: Journal, g: Group, h: Group, uid: nat)
    requires ProperGroup(g) && ProperGroup(h) && Foreign(g, h) && TouchesGroup(journal, next, g)
    requires ClosedOwn(start, journal, h, uid)
    ensures ClosedOwn(start, next, h, uid)
  {
    hide OwnTree, ProperGroup;
    assert Holds(h, h.root);
  }

  /** What one group's turn leaves of any other. */
  lemma UnderwayOther(first: Journal, start: Tree, journal: Journal, tree: Tree, next: Journal, after: Tree,
                      groups: seq<Group>, k: nat, uid: nat, i: nat)
    requires k < |groups| && Underway(first, start, journal, tree, groups, k, uid) && i < |groups| && i != k
    requires Untouched(journal, groups[k]) && Elsewhere(tree, after, groups[k].root)
    requires TouchesGroup(journal, next, groups[k]) && Advances(journal, next) && JournalOk(next) && WellFormed(after)
    requires QuarantineOpen(after)
    ensures ProperGroup(groups[i]) && groups[i].root.identity.Place?
    ensures i > k ==> Tidy(after, groups[i].root) && SamePlaces(start, after, groups[i].root)
    ensures i > k ==> Untouched(next, groups[i])
    ensures i < k ==> ClosedOwn(start, next, groups[i], uid)
    ensures i > k && WholeGroup(first, start, groups[i]) ==>
              Kept(start, next, after, groups[i], uid) && NoneGained(start, after, groups[i].root)
    ensures i < k && WholeGroup(first, start, groups[i]) ==> Fate(start, next, after, groups[i], uid)
  {
    hide Kept, Ended, Lost, NoneGained, Elsewhere, Advances, TouchesGroup, WellFormed, JournalOk, ProperGroup,
         WholeGroup, Untouched, Ready, Tidy, SamePlaces, OwnTree, ClosedOwn, Lodged;
    var g, h := groups[k], groups[i];
    assert ProperGroup(g) && ProperGroup(h) && Foreign(g, h) && Ready(g.root) && Ready(h.root);
    assert Holds(g, g.root) && Holds(h, h.root);
    RootPlaced(h);
    if i > k {
      ForeignTidy(tree, after, g.root, h.root);
      ForeignPlaces(start, tree, after, g.root, h.root);
      ForeignUntouched(journal, next, g, h);
    } else {
      ForeignClosed(start, journal, next, g, h, uid);
    }
    if WholeGroup(first, start, h) {
      if i > k {
        ForeignKept(start, journal, tree, next, after, g, h, uid);
        ForeignEntries(start, tree, after, g, h);
      } else {
        ForeignFate(start, journal, tree, next, after, g, h, uid);
      }
    }
  }

  /** What its own turn makes of a group in order. */
  lemma UnderwayOwn(first: Journal, start: Tree, journal: Journal, tree: Tree, next: Journal, after: Tree,
                    groups: seq<Group>, k: nat, uid: nat, ok: bool, added: seq<Item>, steady: bool)
    requires k < |groups| && Underway(first, start, journal, tree, groups, k, uid) && ProperGroup(groups[k])
    requires GroupEnd(journal, tree, next, after, groups[k], uid, ok, added, steady)
    ensures Elsewhere(tree, after, groups[k].root) && ClosedOwn(start, next, groups[k], uid)
    ensures WholeGroup(first, start, groups[k]) ==> Fate(start, next, after, groups[k], uid)
  {
    hide Kept, Ended, Lost, NoneGained, Elsewhere, ProperGroup, WholeGroup, Clearable, Foreign, Ready, Fit, OwnTree,
         Lodged, SamePlaces, Considerate;
    var g := groups[k];
    if OwnTree(tree, g.root, uid) { OwnToBegin(start, tree, g.root, uid); }
    if WholeGroup(first, start, g) {
      KeptFacts(start, journal, tree, g, uid);
      if Lost(tree, after, g.root) {
        LostSince(start, tree, after, g.root);
      } else {
        KeptLater(start, journal, tree, next, after, g, uid);
      }
    }
  }

  lemma UnderwayNext(first: Journal, start: Tree, journal: Journal, tree: Tree, next: Journal, after: Tree,
                     groups: seq<Group>, k: nat, uid: nat, ok: bool, added: seq<Item>, steady: bool)
    requires k < |groups| && Underway(first, start, journal, tree, groups, k, uid) && ProperGroup(groups[k])
    requires Untouched(journal, groups[k]) && TouchesGroup(journal, next, groups[k]) && Advances(journal, next)
    requires JournalOk(next) && WellFormed(after) && QuarantineOpen(after)
    requires GroupEnd(journal, tree, next, after, groups[k], uid, ok, added, steady)
    ensures Underway(first, start, next, after, groups, k + 1, uid)
  {
    hide Kept, Fate, NoneGained, Elsewhere, Advances, TouchesGroup, WellFormed, JournalOk, Foreign, ProperGroup,
         WholeGroup, Untouched, Ready, GroupEnd, Lodged, SamePlaces, ClosedOwn;
    RootPlaced(groups[k]);
    UnderwayOwn(first, start, journal, tree, next, after, groups, k, uid, ok, added, steady);
    forall i | 0 <= i < |groups| && i != k
      ensures ProperGroup(groups[i]) && groups[i].root.identity.Place?
      ensures i > k ==> Tidy(after, groups[i].root) && SamePlaces(start, after, groups[i].root)
      ensures i > k ==> Untouched(next, groups[i])
      ensures i < k ==> ClosedOwn(start, next, groups[i], uid)
      ensures i > k && WholeGroup(first, start, groups[i]) ==>
                Kept(start, next, after, groups[i], uid) && NoneGained(start, after, groups[i].root)
      ensures i < k && WholeGroup(first, start, groups[i]) ==> Fate(start, next, after, groups[i], uid)
    {
      UnderwayOther(first, start, journal, tree, next, after, groups, k, uid, i);
    }
  }

  lemma UnderwayFates(first: Journal, start: Tree, journal: Journal, tree: Tree, groups: seq<Group>, k: nat, uid: nat)
    requires Underway(first, start, journal, tree, groups, k, uid)
    ensures Fates(first, start, journal, tree, groups, uid)
  {
    hide Kept, Ended, Lost, NoneGained, Foreign, ProperGroup, Ready, WholeGroup, Tidy, Lodged, SamePlaces, OwnTree;
    forall i | k <= i < |groups| ensures ClosedOwn(start, journal, groups[i], uid) {
      assert Holds(groups[i], groups[i].root);
    }
  }

  /** Undisturbed, a group that can be cleared is recovered as a whole. */
  lemma ClearedNext(first: Journal, start: Tree, journal: Journal, tree: Tree, next: Journal, after: Tree,
                    groups: seq<Group>, k: nat, uid: nat, ok: bool, added: seq<Item>)
    requires k < |groups| && Underway(first, start, journal, tree, groups, k, uid)
    requires AllClearable(first, start, groups, uid)
    requires GroupEnd(journal, tree, next, after, groups[k], uid, ok, added, true)
    requires ok ==> Reported(groups[k], added, next)
    ensures ok && AllRecovered(added)
  {
    hide Ended, Elsewhere, ProperGroup, Ready, WholeGroup, Clearable, Lost, NoneGained, Tidy, Fit, Kept, Untouched,
         Lodged, SamePlaces, ClosedOwn, Considerate, OwnTree, AllForeign;
    ClearableStill(first, start, journal, tree, groups[k], uid);
    forall i | 0 <= i < |added| ensures added[i].disposition.Recovered? {
      if i > 0 { assert ClosedAs(groups[k].members[i - 1], added[i - 1 + 1], next); }
    }
  }

  lemma AllRecoveredMore(items: seq<Item>, more: seq<Item>)
    requires AllRecovered(more)
    ensures AllRecovered(items + more) <==> AllRecovered(items)
  {
    if AllRecovered(items + more) { AllRecoveredParts(items, more); }
  }

  lemma DoneNext(first: Journal, start: Tree, journal: Journal, tree: Tree, next: Journal, after: Tree,
                 groups: seq<Group>, k: nat, uid: nat, ok: bool, added: seq<Item>)
    requires k < |groups| && Underway(first, start, journal, tree, groups, k, uid) && ProperGroup(groups[k])
    requires AllFit(groups) && DoneBefore(first, start, journal, tree, groups, k, uid)
    requires Advances(journal, next) && GroupEnd(journal, tree, next, after, groups[k], uid, ok, added, true)
    ensures ok && DoneBefore(first, start, next, after, groups, k + 1, uid)
  {
    hide Ended, Elsewhere, Advances, ProperGroup, Ready, WholeGroup, Roomy, Lost, NoneGained, Tidy, Fit, Kept;
    var g := groups[k];
    UnderwayOwn(first, start, journal, tree, next, after, groups, k, uid, ok, added, true);
    if WholeGroup(first, start, g) && Clearable(first, start, g, uid) {
      ClearableStill(first, start, journal, tree, g, uid);
    }
    forall i | 0 <= i < k && Ended(journal, tree, groups[i]) ensures Ended(next, after, groups[i]) {
      ForeignEnded(journal, tree, next, after, g, groups[i]);
    }
  }

  lemma ClearableStill(first: Journal, start: Tree, journal: Journal, tree: Tree, g: Group, uid: nat)
    requires ProperGroup(g) && WholeGroup(first, start, g) && Clearable(first, start, g, uid)
    requires Kept(start, journal, tree, g, uid)
    ensures WholeGroup(journal, tree, g) && Clearable(journal, tree, g, uid)
  {
    hide WholeGroup, Roomy, ProperGroup;
  }

  // ---- planning every group ----

  /** The groups are the outermost claims with all there is below them. */
  ghost predicate FleetPlan(journal: Journal, groups: seq<Group>) {
    && AllForeign(groups)
    && (forall i :: 0 <= i < |groups| ==> Untouched(journal, groups[i]) && IsTop(journal, groups[i].root.id))
    && (forall i, r :: 0 <= i < |groups| && Holds(groups[i], r) ==> Ready(r))
    && (forall id :: id in journal && Ready(journal[id]) ==> Grouped(groups, journal[id]))
  }

  /** The plans are exactly the claims to clean up. */
  ghost predicate PlansReady(journal: Journal, plans: seq<Record>) {
    && (forall r :: r in plans ==> r.id in journal && journal[r.id] == r && Ready(r))
    && (forall id :: id in journal && Ready(journal[id]) ==> journal[id] in plans)
  }

  lemma PlansAre(journal: Journal, tree: Tree, records: seq<Record>, plans: seq<Record>)
    requires Fleet(journal, tree) && Snapshot(journal, records)
    requires forall i :: 0 <= i < |records| && Plannable(tree, records[i]) ==> records[i] in plans
    requires forall r :: r in plans ==> r in Set(records) && Plannable(tree, r)
    ensures PlansReady(journal, plans)
  {
    hide GroupState, WellFormed, Locate, Publishable, DistinctPlaces;
    forall r | r in plans ensures r.id in journal && journal[r.id] == r && Ready(r) {
      var i :| 0 <= i < |records| && records[i] == r;
    }
    forall id | id in journal && Ready(journal[id]) ensures journal[id] in plans {
      ClaimLocated(journal, tree, id);
      var i :| 0 <= i < |records| && records[i] == journal[id];
      assert Plannable(tree, records[i]);
    }
  }

  lemma RootIsTop(journal: Journal, plans: seq<Record>, groups: seq<Group>, g: Group)
    requires PlansReady(journal, plans) && Grouping(plans, groups) && g in groups
    ensures IsTop(journal, g.root.id) && journal[g.root.id] == g.root && Ready(g.root)
  {
    hide Ready;
    assert Holds(g, g.root);
    forall x | x in journal && Ready(journal[x])
      ensures journal[x].identity.Place? && !(journal[x].identity.path < g.root.identity.path)
    {
      var h :| h in groups && Holds(h, journal[x]);
      assert !Contains(h, g.root);
      assert h.root.identity.path <= journal[x].identity.path;
    }
  }

  /** Two roots with comparable paths are one. */
  lemma RootsApart(journal: Journal, plans: seq<Record>, groups: seq<Group>, i: nat, j: nat)
    requires PlansReady(journal, plans) && DistinctPlaces(journal) && Grouping(plans, groups) && i < |groups|
    requires j < |groups|
    ensures ProperGroup(groups[i]) && ProperGroup(groups[j])
    ensures i != j ==> Foreign(groups[i], groups[j])
  {
    var g, h := groups[i], groups[j];
    assert g in groups && h in groups && Holds(g, g.root) && Holds(h, h.root);
    assert !Contains(g, h.root) && !Contains(h, g.root);
    if i != j {
      assert Disjoint(if i < j then g else h, if i < j then h else g);
      forall r, s | Holds(g, r) && Holds(h, s) ensures r.id != s.id {
        assert r in plans && s in plans && r != s;
      }
      assert g.root.id != h.root.id;
      assert g.root.identity.path != h.root.identity.path;
    }
  }

  /** Whatever lies below a root was planned in its group. */
  lemma PlanHolds(journal: Journal, plans: seq<Record>, groups: seq<Group>, i: nat, r: Record)
    requires PlansReady(journal, plans) && DistinctPlaces(journal) && Grouping(plans, groups) && i < |groups|
    requires ProperGroup(groups[i])
    requires r in plans && r.identity.Place? && groups[i].root.identity.path <= r.identity.path
    ensures Holds(groups[i], r)
  {
    var h :| h in groups && Holds(h, r);
    var j :| 0 <= j < |groups| && groups[j] == h;
    RootsApart(journal, plans, groups, i, j);
    assert h.root.identity.path <= r.identity.path;
    hide PlansReady, Grouping, DistinctPlaces;
    Comparable(groups[i].root.identity.path, h.root.identity.path, r.identity.path);
  }

  lemma PlanMembers(journal: Journal, plans: seq<Record>, groups: seq<Group>, i: nat, r: Record)
    requires PlansReady(journal, plans) && Grouping(plans, groups) && i < |groups| && ProperGroup(groups[i])
    requires Holds(groups[i], r)
    ensures r.id in journal && journal[r.id] == r && Ready(r) && groups[i].root.id in journal
    ensures journal[groups[i].root.id] == groups[i].root
    ensures Ready(groups[i].root) && IsMember(r, groups[i].root)
  {
    assert groups[i] in groups && Holds(groups[i], groups[i].root);
  }

  lemma PlanWhole(journal: Journal, tree: Tree, plans: seq<Record>, groups: seq<Group>, i: nat)
    requires PlansReady(journal, plans) && DistinctPlaces(journal) && Grouping(plans, groups) && i < |groups|
    requires ProperGroup(groups[i]) && GroupState(journal, tree, groups[i].root.id)
    ensures WholeGroup(journal, tree, groups[i]) && Untouched(journal, groups[i])
  {
    hide GroupState, DistinctPlaces, Grouping, ProperGroup;
    var g := groups[i];
    assert Holds(g, g.root);
    PlanMembers(journal, plans, groups, i, g.root);
    forall r | Holds(g, r) ensures r.id in journal && journal[r.id] == r && Ready(r) && IsMember(r, g.root) {
      PlanMembers(journal, plans, groups, i, r);
    }
    forall id | id in journal && IsMember(journal[id], g.root) ensures exists r :: Holds(g, r) && r.id == id {
      PlanHolds(journal, plans, groups, i, journal[id]);
      SameName(journal, tree, g.root.id, id);
    }
  }

  lemma SameName(journal: Journal, tree: Tree, top: string, id: string)
    requires GroupState(journal, tree, top) && id in journal
    ensures journal[id].id == id
  {}

  lemma WholeTidy(journal: Journal, tree: Tree, g: Group)
    requires ProperGroup(g) && WholeGroup(journal, tree, g) && g.root.id in journal && journal[g.root.id] == g.root
    ensures Tidy(tree, g.root)
  {
    hide Unmoved, Moved, WellFormed;
    assert IsMember(g.root, g.root) && Aim(g.root, g.root) == Own(g.root.id);
  }

  lemma PlanKept(journal: Journal, tree: Tree, plans: seq<Record>, groups: seq<Group>, i: nat, uid: nat)
    requires PlansReady(journal, plans) && Fleet(journal, tree) && Grouping(plans, groups) && i < |groups|
    ensures ProperGroup(groups[i]) && Ready(groups[i].root) && IsTop(journal, groups[i].root.id)
    ensures journal[groups[i].root.id] == groups[i].root
    ensures WholeGroup(journal, tree, groups[i]) && Untouched(journal, groups[i])
    ensures Tidy(tree, groups[i].root) && forall r :: Holds(groups[i], r) ==> Ready(r)
    ensures RoomyFleet(journal, tree, uid) && Spare(journal, 0) ==>
              Clearable(journal, tree, groups[i], uid) && Fit(groups[i])
  {
    var g := groups[i];
    assert g in groups && ProperGroup(g) && Holds(g, g.root);
    hide GroupState, WellFormed, JournalOk, Roomy, Grouping, PlansReady, AllReady, ProperGroup, DistinctPlaces;
    RootIsTop(journal, plans, groups, g);
    PlanWhole(journal, tree, plans, groups, i);
    WholeTidy(journal, tree, g);
    forall r | Holds(g, r) ensures r.id in journal && journal[r.id] == r && !r.phase.Reclaimed? {}
  }

  /** In a fleet the first pass reports just the claims reclaimed before: all as recovered, but for cgroups
      without evidence. */
  lemma FleetResults(journal: Journal, tree: Tree, records: seq<Record>, plans: seq<Record>, guards: seq<Guard>,
                     items: seq<Item>)
    requires Fleet(journal, tree) && Snapshot(journal, records)
    requires AllReport(Set(records), items, journal) && AllTold(journal, records, items)
    requires Shielded(records, |records|, plans, guards, items)
    requires forall r :: r in plans ==> Plannable(tree, r) && !Listed(items, r.id)
    requires forall i :: 0 <= i < |records| && Plannable(tree, records[i]) ==> records[i] in plans
    ensures AllRecovered(items) <==> Evidenced(journal)
  {
    hide Plannable, Fleet, Snapshot, Evidenced, AllReport, AllTold, Shielded, Listed;
    if Evidenced(journal) {
      forall k | 0 <= k < |items| ensures items[k].disposition.Recovered? {
        FleetItem(journal, tree, records, plans, guards, items, k);
      }
    } else {
      BareCgroup(journal, tree, records, plans, guards, items);
    }
  }

  lemma FleetItem(journal: Journal, tree: Tree, records: seq<Record>, plans: seq<Record>, guards: seq<Guard>,
                  items: seq<Item>, k: nat)
    requires Fleet(journal, tree) && Snapshot(journal, records) && k < |items| && Evidenced(journal)
    requires AllReport(Set(records), items, journal) && AllTold(journal, records, items)
    requires Shielded(records, |records|, plans, guards, items)
    requires forall r :: r in plans ==> !Listed(items, r.id)
    requires forall i :: 0 <= i < |records| && Plannable(tree, records[i]) ==> records[i] in plans
    ensures items[k].disposition.Recovered?
  {
    hide Plannable, Fleet, GuardFor, DoubtFor, DistinctRecords;
    assert ReportsOne(Set(records), items[k], journal);
    var i :| 0 <= i < |records| && Reports(records[i], items[k], journal);
    assert Listed(items, records[i].id);
    FleetFound(journal, tree, records[i].id);
    assert Judged(records[i], items[k]) && Told(records[i], items[k], journal);
  }

  lemma BareCgroup(journal: Journal, tree: Tree, records: seq<Record>, plans: seq<Record>, guards: seq<Guard>,
                   items: seq<Item>)
    requires Fleet(journal, tree) && Snapshot(journal, records) && !Evidenced(journal)
    requires Shielded(records, |records|, plans, guards, items)
    requires forall r :: r in plans ==> Plannable(tree, r)
    ensures !AllRecovered(items)
  {
    hide Plannable, GuardFor, DoubtFor, DistinctRecords, GroupState, WellFormed, DistinctPlaces, IsTop;
    var id :| id in journal && journal[id].kind.Cgroup? && journal[id].phase.Reclaimed? && !journal[id].evidence;
    var i :| 0 <= i < |records| && records[i] == journal[id];
    ClosedUnplanned(tree, records[i]);
    var k :| 0 <= k < |items| && items[k].id == id;
    assert Judged(records[i], items[k]);
  }

  lemma FleetReported(journal: Journal, tree: Tree, records: seq<Record>, open: set<Record>, plans: seq<Record>,
                      guards: seq<Guard>, items: seq<Item>)
    requires Fleet(journal, tree) && Snapshot(journal, records) && Accounted(journal, Set(records), open, items)
    requires AllTold(journal, records, items) && Shielded(records, |records|, plans, guards, items)
    requires forall r :: r in plans ==> Plannable(tree, r) && !Listed(items, r.id)
    requires forall i :: 0 <= i < |records| && Plannable(tree, records[i]) ==> records[i] in plans
    ensures AllRecovered(items) <==> Evidenced(journal)
  {
    hide Fleet, Snapshot, Plannable, Listed, Evidenced, AllTold, Shielded, AllReport, DistinctItems;
    FleetResults(journal, tree, records, plans, guards, items);
  }

  lemma EndedAll(first: Journal, journal: Journal)
    requires Advances(first, journal)
    ensures JournalOk(first)
            && (forall r :: r in first.Values ==> r.id in journal && journal[r.id].phase.Reclaimed?) ==>
              AllEnded(journal)
  {
    if JournalOk(first) && forall r :: r in first.Values ==> r.id in journal && journal[r.id].phase.Reclaimed? {
      forall id | id in journal ensures journal[id].phase.Reclaimed? {
        assert id in first && first[id] in first.Values && first[id].id == id;
      }
    }
  }

  lemma FleetFound(journal: Journal, tree: Tree, id: string)
    requires Fleet(journal, tree) && id in journal
    ensures (journal[id].owned && journal[id].phase.Reclaimed?) || Plannable(tree, journal[id])
  {
    hide GroupState, WellFormed, Locate, Publishable, DistinctPlaces, IsTop;
    if Ready(journal[id]) { ClaimLocated(journal, tree, id); }
  }

  lemma ClosedUnplanned(tree: Tree, r: Record)
    requires r.phase.Reclaimed?
    ensures !Plannable(tree, r)
  {}

  lemma FleetPlanned(journal: Journal, tree: Tree, records: seq<Record>, plans: seq<Record>, groups: seq<Group>,
                     uid: nat)
    requires Fleet(journal, tree) && Snapshot(journal, records) && Grouping(plans, groups)
    requires forall i :: 0 <= i < |records| && Plannable(tree, records[i]) ==> records[i] in plans
    requires forall r :: r in plans ==> r in Set(records) && Plannable(tree, r)
    ensures FleetPlan(journal, groups) && AllWhole(journal, tree, groups) && AllTidy(tree, groups)
    ensures RoomyFleet(journal, tree, uid) && Spare(journal, 0) ==>
              AllClearable(journal, tree, groups, uid) && AllFit(groups)
  {
    hide GroupState, WellFormed, JournalOk, Plannable, Snapshot, Set, Roomy, RoomyFleet, Spare, Foreign, WholeGroup,
         AllReady, Clearable, IsTop, Grouping, ProperGroup, Untouched, PlansReady, Tidy, Fit;
    PlansAre(journal, tree, records, plans);
    GroupingHolds(journal, plans, groups);
    forall i | 0 <= i < |groups|
      ensures ProperGroup(groups[i]) && Ready(groups[i].root) && IsTop(journal, groups[i].root.id)
      ensures WholeGroup(journal, tree, groups[i]) && Untouched(journal, groups[i])
      ensures Tidy(tree, groups[i].root) && forall r :: Holds(groups[i], r) ==> Ready(r)
      ensures RoomyFleet(journal, tree, uid) && Spare(journal, 0) ==>
                Clearable(journal, tree, groups[i], uid) && Fit(groups[i])
    {
      PlanKept(journal, tree, plans, groups, i, uid);
    }
    forall i, j | 0 <= i < |groups| && 0 <= j < |groups| && i != j ensures Foreign(groups[i], groups[j]) {
      RootsApart(journal, plans, groups, i, j);
    }
  }

  lemma GroupingHolds(journal: Journal, plans: seq<Record>, groups: seq<Group>)
    requires PlansReady(journal, plans) && Grouping(plans, groups)
    ensures forall id :: id in journal && Ready(journal[id]) ==> Grouped(groups, journal[id])
  {
    hide Ready;
    forall id | id in journal && Ready(journal[id]) ensures Grouped(groups, journal[id]) {
      var g :| g in groups && Holds(g, journal[id]);
      var i :| 0 <= i < |groups| && groups[i] == g;
    }
  }

  // ---- what stays under resources ----

  ghost predicate RootAbove(groups: seq<Group>, n: nat, p: Path) {
    exists i :: 0 <= i < n && i < |groups| && groups[i].root.identity.Place? && groups[i].root.identity.path <= p
  }

  /** Whatever has gone from `resources` lay at or below one of the first `n` roots; nothing has come. */
  ghost predicate RootsOnly(start: Tree, tree: Tree, groups: seq<Group>, n: nat) {
    && (forall p :: p in start && InResources(p) && p !in tree ==> RootAbove(groups, n, p))
    && (forall p :: p in tree && InResources(p) ==> p in start && tree[p] == start[p])
  }

  lemma RootsNone(tree: Tree, groups: seq<Group>)
    ensures RootsOnly(tree, tree, groups, 0)
  {}

  lemma RootsMore(start: Tree, tree: Tree, groups: seq<Group>, n: nat)
    requires n <= |groups| && RootsOnly(start, tree, groups, n)
    ensures RootsOnly(start, tree, groups, |groups|)
  {
    forall p | RootAbove(groups, n, p) ensures RootAbove(groups, |groups|, p) {
      var i :| 0 <= i < n && i < |groups| && groups[i].root.identity.Place? && groups[i].root.identity.path <= p;
    }
  }

  lemma RootsNext(start: Tree, tree: Tree, after: Tree, groups: seq<Group>, k: nat)
    requires k < |groups| && ProperGroup(groups[k]) && RootsOnly(start, tree, groups, k)
    requires ResourcesKept(tree, after, groups[k].root.identity.path)
    ensures RootsOnly(start, after, groups, k + 1)
  {
    forall p | p in start && InResources(p) && p !in after ensures RootAbove(groups, k + 1, p) {
      if p in tree {
        assert groups[k].root.identity.path <= p;
      } else {
        assert RootAbove(groups, k, p);
      }
    }
  }

  /** A claim recovery may remove: no protected claim is at or below its path, and it keeps clear of every record not
      even `last` has reclaimed. */
  ghost predicate Yielding(journal: Journal, last: Journal, tree: Tree, id: string) {
    && id in journal && IsPlan(journal[id]) && Plannable(tree, journal[id])
    && (forall x :: x in journal && ProtectedClaim(tree, journal[x]) ==>
                      !(journal[id].identity.path <= journal[x].identity.path))
    && (forall x :: x in journal && Spared(tree, last, journal[x]) ==> KeepsClear(journal[id], journal[x]))
  }

  ghost predicate Yields(journal: Journal, last: Journal, tree: Tree, p: Path) {
    exists id :: Yielding(journal, last, tree, id) && journal[id].identity.path <= p
  }

  /** Whatever an attempt takes from `resources` belongs to a claim it may remove; nothing comes. */
  ghost predicate ResourcesSafe(journal: Journal, last: Journal, before: Tree, tree: Tree) {
    && (forall p :: p in before && InResources(p) && p !in tree ==> Yields(journal, last, before, p))
    && (forall p :: p in tree && InResources(p) ==> p in before && tree[p] == before[p])
  }

  lemma ResourcesUntouched(journal: Journal, last: Journal, tree: Tree)
    ensures ResourcesSafe(journal, last, tree, tree)
  {}

  /** A record spared in the end was spared when the removal was planned. */
  lemma SparedBefore(tree: Tree, planned: Journal, last: Journal, r: Record)
    requires Advances(planned, last) && Spared(tree, last, r)
    ensures Spared(tree, planned, r)
  {
    hide Plannable;
  }

  lemma RootYields(journal: Journal, planned: Journal, last: Journal, tree: Tree, groups: seq<Group>, i: nat)
    requires RemovalSafe(tree, journal, planned, groups) && Advances(planned, last) && i < |groups|
    ensures IsPlan(groups[i].root) && groups[i].root.id in journal && journal[groups[i].root.id] == groups[i].root
    ensures Yielding(journal, last, tree, groups[i].root.id)
  {
    hide Plannable, Spared, Advances;
    var root := groups[i].root;
    assert ProperGroup(groups[i]) && Holds(groups[i], root);
    forall x | x in journal && Spared(tree, last, journal[x]) ensures KeepsClear(root, journal[x]) {
      SparedBefore(tree, planned, last, journal[x]);
    }
    forall x | x in journal && ProtectedClaim(tree, journal[x])
      ensures !(root.identity.path <= journal[x].identity.path)
    {
      assert KeepsClear(root, journal[x]);
    }
  }

  lemma RootsYield(journal: Journal, planned: Journal, last: Journal, before: Tree, tree: Tree, groups: seq<Group>)
    requires RemovalSafe(before, journal, planned, groups) && Advances(planned, last)
    requires RootsOnly(before, tree, groups, |groups|)
    ensures ResourcesSafe(journal, last, before, tree)
  {
    hide RemovalSafe, Yielding, Advances;
    forall p | p in before && InResources(p) && p !in tree ensures Yields(journal, last, before, p) {
      var i :| 0 <= i < |groups| && groups[i].root.identity.Place? && groups[i].root.identity.path <= p;
      RootYields(journal, planned, last, before, groups, i);
    }
  }

  /** A protected claim's directory stays, with everything in it that no removable claim further down accounts for. */
  lemma ProtectedStays(journal: Journal, last: Journal, before: Tree, tree: Tree, id: string, p: Path)
    requires ResourcesSafe(journal, last, before, tree) && id in journal && ProtectedClaim(before, journal[id])
    requires InResources(journal[id].identity.path)
    requires p in before && journal[id].identity.path <= p
    requires forall x :: Yielding(journal, last, before, x) ==>
               !(journal[id].identity.path < journal[x].identity.path <= p)
    ensures p in tree && tree[p] == before[p]
  {
    hide Plannable, Spared;
    assert InResources(p);
    if p !in tree {
      assert Yields(journal, last, before, p);
      var x :| Yielding(journal, last, before, x) && journal[x].identity.path <= p;
      Comparable(journal[id].identity.path, journal[x].identity.path, p);
      PrefixStrict(journal[id].identity.path, journal[x].identity.path);
    }
  }

  /** What goes from `resources` belongs to a claim whose session has no record left open without a place, and to the
      controller's only when no session has one. */
  lemma SessionsQuiet(journal: Journal, last: Journal, before: Tree, tree: Tree, p: Path) returns (id: string)
    requires ResourcesSafe(journal, last, before, tree) && p in before && InResources(p) && p !in tree
    ensures id in journal && Plannable(before, journal[id]) && journal[id].identity.path <= p
    ensures forall x :: x in journal && GuardPath(journal[x]).None? && journal[x].owned
                        && (journal[id].session == "controller" || journal[id].session == journal[x].session) ==>
                          journal[x].id in last && last[journal[x].id].phase.Reclaimed?
  {
    hide KeepsClear;
    assert Yields(journal, last, before, p);
    id :| Yielding(journal, last, before, id) && journal[id].identity.path <= p;
    forall x | x in journal && GuardPath(journal[x]).None? && journal[x].owned
               && (journal[id].session == "controller" || journal[id].session == journal[x].session)
      ensures journal[x].id in last && last[journal[x].id].phase.Reclaimed?
    {
      NowhereSpared(journal, last, before, id, x);
    }
  }

  lemma NowhereSpared(journal: Journal, last: Journal, tree: Tree, id: string, x: string)
    requires Yielding(journal, last, tree, id) && x in journal && GuardPath(journal[x]).None? && journal[x].owned
    requires journal[id].session == "controller" || journal[id].session == journal[x].session
    ensures journal[x].id in last && last[journal[x].id].phase.Reclaimed?
  {
    hide Publishable, Terminal;
    assert !KeepsClear(journal[id], journal[x]);
    assert !Plannable(tree, journal[x]);
  }

  lemma PrefixStrict(a: Path, b: Path)
    ensures a <= b ==> a < b || b <= a
  {
    if a <= b { PrefixCases(a, b); }
  }

  // ---- after the attempt ----

  /** An attempt's journal and tree at one moment. */
  datatype Moment = Moment(journal: Journal, tree: Tree)

  /** Some group's tree has lost an entry while one of its claims is not recorded as reclaimed. */
  ghost predicate Torn(a: Moment, b: Moment) {
    exists top, id :: IsTop(a.journal, top) && TornAt(a, b, top, id)
  }

  ghost predicate TornAt(a: Moment, b: Moment, top: string, id: string)
    requires IsTop(a.journal, top)
  {
    && id in a.journal && IsMember(a.journal[id], a.journal[top]) && Lost(a.tree, b.tree, a.journal[top])
    && !(id in b.journal && b.journal[id].phase.Reclaimed?)
  }

  /** One attempt leads from one moment to the next: records only advance; what goes from `resources` belongs to a
      claim that may be removed; untorn, the groups stay together; undisturbed, everything ends. */
  ghost predicate Attempted(a: Moment, b: Moment, steady: bool, uid: nat) {
    && Advances(a.journal, b.journal) && ResourcesSafe(a.journal, b.journal, a.tree, b.tree)
    && (Fleet(a.journal, a.tree) && !Torn(a, b) ==>
          && Fleet(b.journal, b.tree) && NotesGrow(a.journal, b.journal)
          && (RoomyFleet(a.journal, a.tree, uid) ==> RoomyFleet(b.journal, b.tree, uid)))
    && (steady && Fleet(a.journal, a.tree) && RoomyFleet(a.journal, a.tree, uid) && Spare(a.journal, 0) ==>
          AllEnded(b.journal) && EndedTrees(a.journal, b.tree))
  }

  lemma AttemptedNow(a: Moment, b: Moment, steady: bool, uid: nat)
    requires Advances(a.journal, b.journal) && ResourcesSafe(a.journal, b.journal, a.tree, b.tree)
    requires Fleet(a.journal, a.tree) && !Torn(a, b) ==>
               && Fleet(b.journal, b.tree) && NotesGrow(a.journal, b.journal)
               && (RoomyFleet(a.journal, a.tree, uid) ==> RoomyFleet(b.journal, b.tree, uid))
    requires steady && Fleet(a.journal, a.tree) && RoomyFleet(a.journal, a.tree, uid) && Spare(a.journal, 0) ==>
               AllEnded(b.journal) && EndedTrees(a.journal, b.tree)
    ensures Attempted(a, b, steady, uid)
  {}

  /** Attempts one after another, the undisturbed ones from the `n`th on. */
  ghost predicate AllAttempted(trace: seq<Moment>, n: nat, uid: nat) {
    forall i :: 0 <= i < |trace| - 1 ==> Attempted(trace[i], trace[i + 1], i >= n, uid)
  }

  /** None of the first `n` attempts tore a group. */
  ghost predicate NoneTorn(trace: seq<Moment>, n: nat) {
    forall i :: 0 <= i < n && i < |trace| - 1 ==> !Torn(trace[i], trace[i + 1])
  }

  lemma TraceStart(m: Moment, n: nat, uid: nat)
    ensures AllAttempted([m], n, uid)
  {}

  lemma TraceNext(trace: seq<Moment>, m: Moment, n: nat, uid: nat)
    requires trace != [] && AllAttempted(trace, n, uid) && Attempted(trace[|trace| - 1], m, |trace| - 1 >= n, uid)
    ensures AllAttempted(trace + [m], n, uid)
  {
    hide Attempted;
    var more := trace + [m];
    assert forall i :: 0 <= i < |trace| ==> more[i] == trace[i];
    assert more[|trace|] == m;
  }

  /** Restart convergence, for any run of attempts: if none of the first `n` tore a group, the undisturbed one
      after them finishes everything. */
  lemma {:induction false} Converges(trace: seq<Moment>, n: nat, uid: nat)
    requires |trace| == n + 2 && AllAttempted(trace, n, uid) && NoneTorn(trace, n)
    requires Fleet(trace[0].journal, trace[0].tree) && RoomyFleet(trace[0].journal, trace[0].tree, uid)
    requires Spare(trace[0].journal, n)
    ensures AllEnded(trace[n + 1].journal)
    decreases n
  {
    hide Fleet, RoomyFleet, Torn, ResourcesSafe, Advances, NotesGrow, Spare, AllEnded, EndedTrees;
    assert Attempted(trace[0], trace[0 + 1], 0 >= n, uid);
    if n > 0 {
      assert !Torn(trace[0], trace[0 + 1]);
      SpareLess(trace[0].journal, trace[1].journal, n);
      var rest := trace[1..];
      assert forall i :: 0 <= i < |rest| ==> rest[i] == trace[i + 1];
      forall i | 0 <= i < |rest| - 1
        ensures Attempted(rest[i], rest[i + 1], i >= n - 1, uid) && (i < n - 1 ==> !Torn(rest[i], rest[i + 1]))
      {
        assert Attempted(trace[i + 1], trace[i + 1 + 1], i + 1 >= n, uid);
        assert i + 1 < n ==> !Torn(trace[i + 1], trace[i + 1 + 1]);
      }
      Converges(rest, n - 1, uid);
    }
  }

  /** Nothing was torn: every group is recorded as reclaimed to the last claim, or kept. */
  ghost predicate WholeFates(start: Tree, journal: Journal, tree: Tree, groups: seq<Group>, uid: nat) {
    forall i :: 0 <= i < |groups| ==>
      ProperGroup(groups[i]) && (GroupRecovered(groups[i], journal) || Kept(start, journal, tree, groups[i], uid))
  }

  lemma FatesWhole(first: Journal, start: Tree, journal: Journal, tree: Tree, groups: seq<Group>, uid: nat)
    requires FleetPlan(first, groups) && AllWhole(first, start, groups)
    requires Fates(first, start, journal, tree, groups, uid)
    requires !Torn(Moment(first, start), Moment(journal, tree))
    ensures WholeFates(start, journal, tree, groups, uid)
  {
    hide Kept, Lost, AllForeign, WholeGroup, ProperGroup;
    forall i | 0 <= i < |groups|
      ensures GroupRecovered(groups[i], journal) || Kept(start, journal, tree, groups[i], uid)
    {
      if Lost(start, tree, groups[i].root) { NotTorn(first, start, journal, tree, groups, i); }
    }
  }

  lemma NotTorn(first: Journal, start: Tree, journal: Journal, tree: Tree, groups: seq<Group>, i: nat)
    requires FleetPlan(first, groups) && i < |groups| && ProperGroup(groups[i])
    requires !Torn(Moment(first, start), Moment(journal, tree))
    requires Lost(start, tree, groups[i].root)
    ensures GroupRecovered(groups[i], journal)
  {
    hide Lost, FleetPlan, Torn, IsTop, IsMember, Ready;
    forall r | Holds(groups[i], r) ensures r.id in journal && journal[r.id].phase.Reclaimed? {
      HeldMember(first, groups, i, r);
      MemberReclaimed(first, start, journal, tree, groups[i].root.id, r.id);
    }
  }

  lemma HeldMember(first: Journal, groups: seq<Group>, i: nat, r: Record)
    requires FleetPlan(first, groups) && i < |groups| && ProperGroup(groups[i]) && Holds(groups[i], r)
    ensures r.id in first && first[r.id] == r && IsTop(first, groups[i].root.id)
    ensures first[groups[i].root.id] == groups[i].root
    ensures IsMember(first[r.id], first[groups[i].root.id])
  {
    hide AllForeign;
    assert Holds(groups[i], groups[i].root);
  }

  lemma MemberReclaimed(first: Journal, start: Tree, journal: Journal, tree: Tree, top: string, id: string)
    requires IsTop(first, top) && id in first && IsMember(first[id], first[top]) && Lost(start, tree, first[top])
    requires !Torn(Moment(first, start), Moment(journal, tree))
    ensures id in journal && journal[id].phase.Reclaimed?
  {
    hide IsTop, IsMember, Lost;
    assert !TornAt(Moment(first, start), Moment(journal, tree), top, id);
  }

  lemma KeptClaim(start: Tree, journal: Journal, tree: Tree, g: Group, uid: nat, r: Record)
    requires ProperGroup(g) && Kept(start, journal, tree, g, uid) && Holds(g, r)
    ensures r.id in journal && Ready(journal[r.id]) && journal[r.id].observations <= r.observations + 1
  {
    hide GroupState, Roomy;
  }

  /** The group a claim was planned in. */
  lemma ClaimGroup(first: Journal, groups: seq<Group>, id: string) returns (i: nat)
    requires FleetPlan(first, groups) && id in first && Ready(first[id])
    ensures i < |groups| && Holds(groups[i], first[id]) && ProperGroup(groups[i]) && Untouched(first, groups[i])
    ensures IsTop(first, groups[i].root.id) && groups[i].root.id in first && first[groups[i].root.id] == groups[i].root
  {
    hide Ready, IsTop;
    assert Grouped(groups, first[id]);
    i :| 0 <= i < |groups| && Holds(groups[i], first[id]);
    assert Holds(groups[i], groups[i].root);
  }

  lemma FateOf(first: Journal, start: Tree, journal: Journal, tree: Tree, groups: seq<Group>, uid: nat, i: nat,
               id: string)
    requires WholeFates(start, journal, tree, groups, uid) && i < |groups| && Untouched(first, groups[i])
    requires id in first && Holds(groups[i], first[id]) && JournalOk(first)
    ensures ProperGroup(groups[i]) && (GroupRecovered(groups[i], journal) || Kept(start, journal, tree, groups[i], uid))
    ensures first[id].id == id
  {
    hide Kept, GroupRecovered, ProperGroup;
  }

  /** A claim has ended with its group or is still one to clean up. */
  lemma ClaimFate(first: Journal, start: Tree, journal: Journal, tree: Tree, groups: seq<Group>, uid: nat, id: string)
    requires FleetPlan(first, groups) && AllReady(first) && JournalOk(first) && Advances(first, journal)
    requires WholeFates(start, journal, tree, groups, uid) && id in first
    ensures (journal[id].owned && journal[id].phase.Reclaimed?) || (Ready(journal[id]) && Ready(first[id]))
    ensures journal[id].phase.Reclaimed? || journal[id].observations <= first[id].observations + 1
  {
    hide FleetPlan, WholeGroup, Roomy, WholeFates, ProperGroup, Untouched, IsTop;
    if Ready(first[id]) {
      var i := ClaimGroup(first, groups, id);
      FateOf(first, start, journal, tree, groups, uid, i, id);
      if Kept(start, journal, tree, groups[i], uid) { KeptClaim(start, journal, tree, groups[i], uid, first[id]); }
    }
  }

  /** An outermost open claim is the root of a group that was kept. */
  lemma TopFate(first: Journal, start: Tree, journal: Journal, tree: Tree, groups: seq<Group>, uid: nat, id: string)
    requires FleetPlan(first, groups) && AllReady(first) && JournalOk(first) && Advances(first, journal)
    requires WholeFates(start, journal, tree, groups, uid)
    requires IsTop(journal, id)
    ensures GroupState(journal, tree, id)
    ensures RoomyFleet(first, start, uid) ==> Roomy(journal[id], tree, uid)
  {
    ClaimFate(first, start, journal, tree, groups, uid, id);
    var i := ClaimGroup(first, groups, id);
    var g := groups[i];
    FateOf(first, start, journal, tree, groups, uid, i, id);
    hide GroupState, Roomy, FleetPlan, WholeFates, ProperGroup;
    KeptFacts(start, journal, tree, g, uid);
    assert IsMember(journal[id], journal[g.root.id]);
    assert !(journal[g.root.id].identity.path < journal[id].identity.path);
    SameClaimTree(g.root, journal[id], tree, tree, uid);
  }

  lemma FatesFleet(first: Journal, start: Tree, journal: Journal, tree: Tree, groups: seq<Group>, uid: nat)
    requires Fleet(first, start) && FleetPlan(first, groups) && Advances(first, journal)
    requires AllWhole(first, start, groups) && Fates(first, start, journal, tree, groups, uid)
    requires JournalOk(journal) && WellFormed(tree) && QuarantineOpen(tree)
    requires !Torn(Moment(first, start), Moment(journal, tree))
    ensures Fleet(journal, tree) && NotesGrow(first, journal)
    ensures RoomyFleet(first, start, uid) ==> RoomyFleet(journal, tree, uid)
  {
    hide GroupState, Roomy, FleetPlan, Fates, WholeFates, WellFormed, JournalOk, Torn, AllWhole;
    FatesWhole(first, start, journal, tree, groups, uid);
    forall id | id in first
      ensures (journal[id].owned && journal[id].phase.Reclaimed?) || (Ready(journal[id]) && Ready(first[id]))
      ensures journal[id].phase.Reclaimed? || journal[id].observations <= first[id].observations + 1
    {
      ClaimFate(first, start, journal, tree, groups, uid, id);
    }
    forall id | IsTop(journal, id)
      ensures GroupState(journal, tree, id) && (RoomyFleet(first, start, uid) ==> Roomy(journal[id], tree, uid))
    {
      TopFate(first, start, journal, tree, groups, uid, id);
    }
    assert DistinctPlaces(journal) by { PlacesStay(first, journal); }
  }

  lemma PlacesStay(first: Journal, journal: Journal)
    requires DistinctPlaces(first) && Advances(first, journal)
    requires forall id :: id in first && Ready(journal[id]) ==> Ready(first[id])
    ensures DistinctPlaces(journal)
  {}

  lemma DoneClaim(first: Journal, journal: Journal, tree: Tree, groups: seq<Group>, id: string)
    requires FleetPlan(first, groups) && AllGone(journal, tree, groups) && WellFormed(tree) && id in first
    requires Ready(first[id]) && first[id].id == id
    ensures id in journal && journal[id].phase.Reclaimed? && first[id].identity.path !in tree
    ensures (IsTop(first, id) ==> Own(id) !in tree)
  {
    var i := ClaimGroup(first, groups, id);
    var g := groups[i];
    assert Ended(journal, tree, g);
    hide FleetPlan, AllGone;
    assert g.root.identity.path <= first[id].identity.path;
    AbsentBelow(tree, g.root.identity.path, first[id].identity.path);
    hide WellFormed;
    assert g.root != first[id] ==> g.root.identity.path < first[id].identity.path;
  }

  lemma DoneFleet(first: Journal, start: Tree, journal: Journal, tree: Tree, groups: seq<Group>)
    requires Fleet(first, start) && FleetPlan(first, groups) && Advances(first, journal)
    requires AllGone(journal, tree, groups) && WellFormed(tree)
    ensures AllEnded(journal) && EndedTrees(first, tree)
  {
    hide GroupState, FleetPlan, AllGone, WellFormed, IsTop;
    forall id | id in first && Ready(first[id])
      ensures journal[id].phase.Reclaimed? && first[id].identity.path !in tree
      ensures (IsTop(first, id) ==> Own(id) !in tree)
    {
      DoneClaim(first, journal, tree, groups, id);
    }
  }

  // ---- beside whatever else the journal holds ----

  ghost predicate HeldId(groups: seq<Group>, x: string) {
    exists i, r :: 0 <= i < |groups| && Holds(groups[i], r) && r.id == x
  }

  /** Only records of the groups differ. */
  ghost predicate TouchesGroups(journal: Journal, next: Journal, groups: seq<Group>) {
    journal.Keys == next.Keys && forall x :: x in journal && !HeldId(groups, x) ==> next[x] == journal[x]
  }

  lemma TouchesNext(first: Journal, journal: Journal, next: Journal, groups: seq<Group>, k: nat)
    requires k < |groups| && TouchesGroups(first, journal, groups) && TouchesGroup(journal, next, groups[k])
    ensures TouchesGroups(first, next, groups)
  {
    forall x | x in first && !HeldId(groups, x) ensures next[x] == first[x] {
      assert forall r :: Holds(groups[k], r) ==> r.id != x;
    }
  }

  /** The journal as the removal found it: the groups' own records still as before, all others as they are now. */
  ghost function Planned(first: Journal, last: Journal, groups: seq<Group>): Journal {
    map id | id in last :: if HeldId(groups, id) && id in first then first[id] else last[id]
  }

  lemma PlannedIs(first: Journal, planned: Journal, last: Journal, groups: seq<Group>)
    requires first.Keys == planned.Keys && TouchesGroups(planned, last, groups)
    requires forall i, r :: 0 <= i < |groups| && Holds(groups[i], r) ==> r.id in first && first[r.id] == r
    requires forall i :: 0 <= i < |groups| ==> Untouched(planned, groups[i])
    ensures Planned(first, last, groups) == planned
  {
    forall x | x in last ensures Planned(first, last, groups)[x] == planned[x] {
      if HeldId(groups, x) {
        var i, r :| 0 <= i < |groups| && Holds(groups[i], r) && r.id == x;
      }
    }
  }

  lemma HeldFirst(tree: Tree, first: Journal, planned: Journal, groups: seq<Group>)
    requires RemovalSafe(tree, first, planned, groups)
    ensures forall i, r :: 0 <= i < |groups| && Holds(groups[i], r) ==>
                             r.id in first && first[r.id] == r && Plannable(tree, r)
  {
    hide Plannable, Barred, Spared, KeepsClear, ProtectedClaim, Grouped, ProperGroup, Holds;
  }

  /** What was spared when the removal was planned still is. */
  lemma StillSpared(tree: Tree, first: Journal, planned: Journal, last: Journal, groups: seq<Group>, x: string)
    requires RemovalSafe(tree, first, planned, groups) && TouchesGroups(planned, last, groups) && JournalOk(first)
    requires first.Keys == planned.Keys && x in first
    ensures Spared(tree, planned, first[x]) <==> Spared(tree, last, first[x])
  {
    hide Plannable, RemovalSafe, Publishable, Holds;
    HeldFirst(tree, first, planned, groups);
    assert HeldId(groups, x) ==> Plannable(tree, first[x]);
  }

  lemma StillBarred(tree: Tree, first: Journal, planned: Journal, last: Journal, groups: seq<Group>, r: Record)
    requires IsPlan(r) && forall x :: x in first ==> (Spared(tree, planned, first[x]) <==> Spared(tree, last, first[x]))
    ensures Barred(tree, first, planned, r) <==> Barred(tree, first, last, r)
  {
    hide Spared, GuardPath, Blocks;
    if Barred(tree, first, planned, r) {
      var x :| x in first && Spared(tree, planned, first[x]) && Blocks(Guard(GuardPath(first[x]), first[x]), r);
      assert Spared(tree, last, first[x]);
    }
    if Barred(tree, first, last, r) {
      var x :| x in first && Spared(tree, last, first[x]) && Blocks(Guard(GuardPath(first[x]), first[x]), r);
      assert Spared(tree, planned, first[x]);
    }
  }

  lemma StillSafe(tree: Tree, first: Journal, planned: Journal, last: Journal, groups: seq<Group>)
    requires RemovalSafe(tree, first, planned, groups) && TouchesGroups(planned, last, groups) && JournalOk(first)
    requires first.Keys == planned.Keys
    ensures RemovalSafe(tree, first, last, groups)
  {
    hide Plannable, Barred, KeepsClear, ProtectedClaim, JournalOk, TouchesGroups, Spared, Grouped, ProperGroup;
    forall x | x in first ensures Spared(tree, planned, first[x]) <==> Spared(tree, last, first[x]) {
      StillSpared(tree, first, planned, last, groups, x);
    }
    forall x | x in first && Plannable(tree, first[x]) && IsPlan(first[x])
      ensures Barred(tree, first, planned, first[x]) <==> Barred(tree, first, last, first[x])
    {
      StillBarred(tree, first, planned, last, groups, first[x]);
    }
  }

  lemma PlannedReady(tree: Tree, first: Journal, r: Record)
    requires AllMovable(first) && r.id in first && first[r.id] == r && Plannable(tree, r)
    ensures Ready(r) && r.observations < MAX_OBSERVATIONS
  {}

  /** Every planned claim may be recovered. */
  ghost predicate AllRecoverable(groups: seq<Group>) {
    forall i, r :: 0 <= i < |groups| && Holds(groups[i], r) ==> Ready(r)
  }

  /** Claims at distinct places make groups that share nothing, and if they can all be moved on, all can be closed. */
  lemma PlannedForeign(tree: Tree, first: Journal, last: Journal, groups: seq<Group>)
    requires RemovalSafe(tree, first, last, groups) && DistinctPlaces(first)
    requires AllMovable(first) || AllRecoverable(groups)
    ensures AllForeign(groups) && (AllMovable(first) ==> AllFit(groups))
  {
    hide Plannable, Barred, KeepsClear, ProtectedClaim, AllMovable, Spared, Ready, Grouped;
    if AllMovable(first) {
      forall i, r | 0 <= i < |groups| && Holds(groups[i], r) ensures Ready(r) && r.observations < MAX_OBSERVATIONS {
        PlannedReady(tree, first, r);
      }
    }
    forall i | 0 <= i < |groups| ensures ProperGroup(groups[i]) && Holds(groups[i], groups[i].root) {}
    forall i, j | 0 <= i < |groups| && 0 <= j < |groups| && i != j ensures Foreign(groups[i], groups[j]) {
      PairForeign(tree, first, last, groups, i, j);
    }
  }

  lemma PairForeign(tree: Tree, first: Journal, last: Journal, groups: seq<Group>, i: nat, j: nat)
    requires RemovalSafe(tree, first, last, groups) && DistinctPlaces(first) && i < |groups| && j < |groups| && i != j
    requires forall k, r :: 0 <= k < |groups| && Holds(groups[k], r) ==> Ready(r)
    ensures ProperGroup(groups[i]) && ProperGroup(groups[j]) && Foreign(groups[i], groups[j])
  {
    hide Plannable, Barred, KeepsClear, ProtectedClaim, Spared, Grouped, Ready;
    var g, h := groups[i], groups[j];
    assert ProperGroup(g) && ProperGroup(h) && Holds(g, g.root) && Holds(h, h.root);
    forall r, s | Holds(g, r) && Holds(h, s) ensures r.id != s.id {
      assert first[r.id] == r && first[s.id] == s;
    }
    assert g.root.identity.path != h.root.identity.path;
    PrefixStrict(g.root.identity.path, h.root.identity.path);
    PrefixStrict(h.root.identity.path, g.root.identity.path);
  }

  /** The open claims have their own places, and each planned group is where its own claims would put it. */
  ghost predicate Orderly(first: Journal, before: Tree, groups: seq<Group>) {
    DistinctPlaces(first) && AllTidy(before, groups) && (AllMovable(first) || AllRecoverable(groups))
  }

  /** What an attempt comes to for each planned group by itself, whatever else the journal holds. */
  ghost predicate LocalEnd(first: Journal, before: Tree, last: Journal, tree: Tree, groups: seq<Group>, uid: nat,
                           ok: bool, steady: bool) {
    && Fates(Planned(first, last, groups), before, last, tree, groups, uid)
    && (steady && AllMovable(first) ==> ok && DoneAll(Planned(first, last, groups), before, last, tree, groups, uid))
  }

  lemma NoneTouched(journal: Journal, groups: seq<Group>)
    ensures TouchesGroups(journal, journal, groups)
  {}

  lemma NothingEnds(first: Journal, last: Journal, tree: Tree, uid: nat, steady: bool)
    requires !(steady && AllMovable(first))
    ensures LocalEnd(first, tree, last, tree, [], uid, false, steady)
  {}

  lemma AllLodged(tree: Tree, first: Journal, planned: Journal, groups: seq<Group>)
    requires RemovalSafe(tree, first, planned, groups) && OneName(tree) && AllTidy(tree, groups)
    ensures forall i :: 0 <= i < |groups| ==> groups[i].root.identity.Place? && Lodged(tree, groups[i].root)
  {
    hide RemovalSafe, Plannable, Lodged, OneName;
    HeldFirst(tree, first, planned, groups);
    forall i | 0 <= i < |groups| ensures groups[i].root.identity.Place? && Lodged(tree, groups[i].root) {
      assert Holds(groups[i], groups[i].root) && Tidy(tree, groups[i].root);
      PlannedLodged(tree, groups[i].root);
    }
  }

  // ---- entries that are not ours ----

  /** A node of another owner, or on a device none of the roots is on. */
  predicate Outsider(groups: seq<Group>, uid: nat, n: Node) {
    n.uid != uid
    || forall i :: 0 <= i < |groups| && groups[i].root.identity.Place? ==>
                     n.Device() != groups[i].root.identity.stamp.device
  }

  /** Of every outsider there are as many entries as before. */
  ghost predicate Conserved(before: Tree, tree: Tree, groups: seq<Group>, uid: nat) {
    forall n: Node :: Outsider(groups, uid, n) ==> Copies(tree, n) == Copies(before, n)
  }

  ghost predicate AllUnobstructed(tree: Tree, groups: seq<Group>) {
    forall i :: 0 <= i < |groups| ==> Unobstructed(tree, groups[i].root)
  }

  /** Before group `k`: outsiders are conserved, and no later rename has anything to replace. */
  ghost predicate Conserving(start: Tree, tree: Tree, groups: seq<Group>, k: nat, uid: nat) {
    Conserved(start, tree, groups, uid) && forall i :: k <= i < |groups| ==> Unobstructed(tree, groups[i].root)
  }

  lemma ConservingStart(tree: Tree, groups: seq<Group>, uid: nat)
    ensures AllUnobstructed(tree, groups) ==> Conserving(tree, tree, groups, 0, uid)
  {}

  lemma ConservingNext(start: Tree, tree: Tree, after: Tree, groups: seq<Group>, k: nat, uid: nat)
    requires k < |groups| && groups[k].root.identity.Place? && Conserving(start, tree, groups, k, uid)
    requires Considerate(tree, after, groups[k].root, uid)
    requires forall i :: k < i < |groups| ==> groups[i].root.id != groups[k].root.id
    ensures Conserving(start, after, groups, k + 1, uid)
  {
    hide Copies;
    forall i | k < i < |groups| ensures Unobstructed(after, groups[i].root) {
      OwnApart(groups[k].root.id, groups[i].root.id);
    }
  }

  lemma ConservedMeans(start: Tree, tree: Tree, groups: seq<Group>, k: nat, uid: nat)
    requires Conserving(start, tree, groups, k, uid)
    ensures Conserved(start, tree, groups, uid)
  {}

  lemma SelfConserved(tree: Tree, groups: seq<Group>, uid: nat)
    ensures Conserved(tree, tree, groups, uid)
  {}

  lemma EndConsiderate(first: Journal, before: Tree, journal: Journal, tree: Tree, g: Group, uid: nat, ok: bool,
                       added: seq<Item>, steady: bool)
    requires ProperGroup(g) && GroupEnd(first, before, journal, tree, g, uid, ok, added, steady)
    ensures g.root.identity.Place? && Considerate(before, tree, g.root, uid)
  {
    hide Considerate, Ended, OwnTree, Kept, WholeGroup, Clearable, Lost, Elsewhere;
  }

  lemma LaterRoots(journal: Journal, all: set<Record>, groups: seq<Group>, k: nat, open: set<Record>, items: seq<Item>)
    requires k < |groups| && Remain(groups, k, open) && Accounted(journal, all, open, items)
    ensures forall i :: k < i < |groups| ==> groups[i].root.id != groups[k].root.id
  {
    hide AllReport, AllRecovered, AllCovered, DistinctItems, Unreported, OpenGroup;
    forall i | k < i < |groups| ensures groups[i].root.id != groups[k].root.id {
      assert Disjoint(groups[k], groups[i]);
      assert Holds(groups[k], groups[k].root) && Holds(groups[i], groups[i].root);
      assert groups[k].root in open && groups[i].root in open;
    }
  }

  lemma PlanStarts(first: Journal, planned: Journal, tree: Tree, groups: seq<Group>, uid: nat)
    requires RemovalSafe(tree, first, planned, groups) && OneName(tree)
    requires forall i :: 0 <= i < |groups| ==> Untouched(planned, groups[i])
    ensures AllTidy(tree, groups) && FleetPlan(first, groups) ==> Underway(planned, tree, planned, tree, groups, 0, uid)
    ensures Orderly(first, tree, groups) ==>
              Underway(planned, tree, planned, tree, groups, 0, uid) && (AllMovable(first) ==> AllFit(groups))
  {
    hide RemovalSafe, AllTidy, AllFit, AllMovable, DistinctPlaces, Untouched, Underway, AllForeign, Lodged;
    if AllTidy(tree, groups) { AllLodged(tree, first, planned, groups); }
    if AllTidy(tree, groups) && FleetPlan(first, groups) { UnderwayStart(planned, tree, groups, uid); }
    if Orderly(first, tree, groups) {
      PlannedForeign(tree, first, planned, groups);
      UnderwayStart(planned, tree, groups, uid);
    }
  }

  lemma PlanEnds(first: Journal, planned: Journal, last: Journal, before: Tree, tree: Tree, groups: seq<Group>,
                 uid: nat, ok: bool, steady: bool)
    requires RemovalSafe(before, first, planned, groups) && TouchesGroups(planned, last, groups) && JournalOk(first)
    requires Advances(first, planned) && forall i :: 0 <= i < |groups| ==> Untouched(planned, groups[i])
    ensures RemovalSafe(before, first, last, groups)
    ensures Fates(planned, before, last, tree, groups, uid)
            && (steady && AllMovable(first) ==> ok && DoneAll(planned, before, last, tree, groups, uid)) ==>
              LocalEnd(first, before, last, tree, groups, uid, ok, steady)
  {
    hide RemovalSafe, TouchesGroups, JournalOk, Untouched, Fates, DoneAll, Planned, AllMovable;
    StillSafe(before, first, planned, last, groups);
    HeldFirst(before, first, planned, groups);
    PlannedIs(first, planned, last, groups);
  }

  lemma GroupsUntouched(journal: Journal, all: set<Record>, safe: seq<Record>, groups: seq<Group>, items: seq<Item>)
    requires Accounted(journal, all, Set(safe), items) && Grouping(safe, groups)
    requires forall r :: r in safe ==> IsPlan(r) && InResources(r.identity.path) && !Terminal(r.phase)
    ensures forall i :: 0 <= i < |groups| ==> Untouched(journal, groups[i])
  {
    hide AllReport, AllRecovered, AllCovered, DistinctItems, Unreported, ProperGroup;
    forall i, r | 0 <= i < |groups| && Holds(groups[i], r)
      ensures r.id in journal && journal[r.id] == r && !Terminal(r.phase)
    {
      assert groups[i] in groups && r in safe && r in Set(safe);
    }
  }

  /** What recovery sees of a cgroup directory. */
  datatype Sight = Strange | Missing | Busy | Quiet

  function Seen(kernel: map<string, Sight>, id: string): Sight {
    if id in kernel then kernel[id] else Strange
  }
}
