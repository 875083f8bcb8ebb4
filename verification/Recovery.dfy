/** One offline recovery attempt, step by step. Between any two durable effects the
    attempt may be cut off; `steady` rules that out. */
module Recovery {
  import opened Options
  import opened RecoveryTree
  import opened RecoveryRecords
  import opened RecoveryPlan
  import opened RecoveryRemoval
  import opened RecoverySafety
  import opened RecoveryGroup
  import opened RecoveryFleet
  import opened RecoveryResults
  import opened RecoveryGuards
  import opened RecoverySteps
  import opened RecoveryPasses
  import RecoveryReceipt

  class Recoverer {
    var journal: Journal
    var tree: Tree
    /** No crash and no deadline interrupts this attempt. */
    var steady: bool
    /** What the kernel shows of each cgroup. */
    var kernel: map<string, Sight>
    const uid: nat
    const boot: string
    /** Claims already reclaimed when recovery first saw the journal. */
    ghost const origin: set<string>
    /** Every claim recovery recorded as reclaimed, with the tree at that moment. */
    ghost var closures: seq<Closure>

    constructor (journal: Journal, tree: Tree, uid: nat, boot: string)
      requires JournalOk(journal) && WellFormed(tree) && QuarantineOpen(tree)
      ensures Valid() && this.journal == journal && this.tree == tree && closures == []
      ensures this.uid == uid && origin == set id | id in journal && journal[id].phase.Reclaimed?
    {
      this.journal, this.tree, this.uid, this.boot := journal, tree, uid, boot;
      steady, kernel, closures := false, map[], [];
      origin := set id | id in journal && journal[id].phase.Reclaimed?;
    }

    ghost predicate Valid()
      reads `journal, `tree, `closures
    {
      && JournalOk(journal) && WellFormed(tree) && QuarantineOpen(tree)
      && AllClosed(closures, journal, tree) && Recorded(closures, journal, origin)
    }

    /** Replace one record, unless the attempt is cut off first or the record is refused. */
    method Publish(r: Record) returns (ok: bool)
      requires JournalOk(journal) && r.id in journal && !Terminal(journal[r.id].phase) && SameClaim(journal[r.id], r)
      modifies `journal
      ensures JournalOk(journal) && Advances(old(journal), journal) && Touches(old(journal), journal, r.id)
      ensures journal == if ok then old(journal)[r.id := r] else old(journal)
      ensures ok ==> Publishable(r)
      ensures steady && Publishable(r) ==> ok
    {
      var cut: bool := *;
      ok := (steady || !cut) && Publishable(r);
      if ok {
        StepAdvances(journal, r.id, r);
        journal := journal[r.id := r];
      }
    }

    /** `RecoveryJournal.transition`; a move outside the phase graph is an error that ends the attempt. */
    method Transition(id: string, phase: Phase, target: Option<Path>, note: Note) returns (ok: bool)
      requires JournalOk(journal) && id in journal
      modifies `journal, `closures
      ensures JournalOk(journal) && Advances(old(journal), journal) && Touches(old(journal), journal, id)
      ensures ok ==> phase in Next(old(journal)[id].phase)
                     && journal[id] == Changed(old(journal)[id], phase, target, note)
      ensures !ok ==> journal == old(journal)
      ensures steady && phase in Next(old(journal)[id].phase) ==>
                Publishable(Changed(old(journal)[id], phase, target, note)) ==> ok
      ensures closures == if ok && phase.Reclaimed? && IsClaim(journal[id])
              then old(closures) + [Closure(journal[id], tree)] else old(closures)
    {
      if phase !in Next(journal[id].phase) { return false; }
      ok := Publish(Changed(journal[id], phase, target, note));
      if ok && phase.Reclaimed? && IsClaim(journal[id]) {
        closures := closures + [Closure(journal[id], tree)];
      }
    }

    /** A transition that closes nothing keeps every closure. */
    method Step(id: string, phase: Phase, target: Option<Path>, note: Note) returns (ok: bool)
      requires Valid() && id in journal && (phase.Reclaimed? ==> !IsClaim(journal[id]))
      modifies `journal, `closures
      ensures Valid() && JournalOk(journal) && closures == old(closures) && Advances(old(journal), journal)
      ensures Touches(old(journal), journal, id)
      ensures ok ==> phase in Next(old(journal)[id].phase)
                     && journal[id] == Changed(old(journal)[id], phase, target, note)
      ensures !ok ==> journal == old(journal)
      ensures steady && phase in Next(old(journal)[id].phase) ==>
                Publishable(Changed(old(journal)[id], phase, target, note)) ==> ok
    {
      hide JournalOk, WellFormed, AllClosed, Publishable, Next, Recorded;
      ok := Transition(id, phase, target, note);
      ClosedAdvance(closures, old(journal), journal, tree);
      RecordedMore(closures, old(journal), origin, journal, id, []);
      assert closures + [] == closures;
    }

    /** `_mark_ambiguous`: a terminal record is only reported. */
    method MarkAmbiguous(r: Record, reason: Reason) returns (item: Option<Item>)
      requires Valid() && r.id in journal && (!Terminal(r.phase) ==> journal[r.id] == r)
      modifies `journal, `closures
      ensures Valid() && closures == old(closures) && Advances(old(journal), journal)
      ensures Touches(old(journal), journal, r.id)
      ensures item.Some? ==> item.value.id == r.id && item.value.disposition.Doubtful?
                             && item.value.session == r.session && item.value.kind == r.kind
                             && item.value.reason == Some(reason)
      ensures item.Some? ==> item.value.phase == if Terminal(r.phase) then r.phase else Ambiguous
      ensures item.Some? && !Terminal(r.phase) ==> journal[r.id].phase.Ambiguous?
      ensures journal[r.id].observations <= old(journal)[r.id].observations + 1
      ensures item.None? || Terminal(r.phase) ==> journal == old(journal)
      ensures steady && (Terminal(r.phase) || Movable(r)) ==> item.Some?
    {
      if !Terminal(r.phase) && Movable(r) { MovableFits(r); }
      hide JournalOk, WellFormed, AllClosed, Publishable;
      var now := r;
      if !Terminal(r.phase) {
        var ok := Step(r.id, Ambiguous, None, Noted);
        if !ok { return None; }
        now := journal[r.id];
      }
      item := Some(ItemOf(now, Doubtful, Some(reason)));
    }

    method Fail(id: string, reason: Reason) returns (item: Option<Item>)
      requires Valid() && id in journal && journal[id].phase.CleanupIntent?
      modifies `journal, `closures
      ensures Valid() && closures == old(closures) && Advances(old(journal), journal)
      ensures Touches(old(journal), journal, id)
      ensures item.Some? ==> item.value.id == id && item.value.disposition.Failed? && journal[id].phase.CleanupFailed?
                             && item.value.phase.CleanupFailed? && item.value.reason == Some(reason)
      ensures item.Some? ==> item.value.session == old(journal)[id].session && item.value.kind == old(journal)[id].kind
      ensures journal[id].observations <= old(journal)[id].observations + 1
      ensures item.None? ==> journal == old(journal)
      ensures old(Armed(journal, tree, id)) ==> GroupState(journal, tree, id)
      ensures steady && Movable(old(journal)[id]) && Known(old(journal)[id]) ==> item.Some?
    {
      if Movable(journal[id]) { MovableFits(journal[id]); }
      hide WellFormed, AllClosed, Publishable, GroupState;
      var ok := Step(id, CleanupFailed, None, Noted);
      if old(Armed(journal, tree, id)) { FailKeeps(old(journal), tree, id, journal); }
      if !ok { return None; }
      item := Some(ItemOf(journal[id], Failed, Some(reason)));
    }

    /** `set_cleanup_target`: fixed once, during cleanup intent. */
    method SetTarget(id: string, target: Path) returns (ok: bool)
      requires Valid() && id in journal && journal[id].phase.CleanupIntent? && journal[id].target.None?
      modifies `journal
      ensures Valid() && JournalOk(journal) && Advances(old(journal), journal) && Touches(old(journal), journal, id)
      ensures ok ==> journal[id] == old(journal)[id].(target := Some(target))
      ensures !ok ==> journal == old(journal)
      ensures steady && InQuarantine(target) ==> ok
    {
      hide WellFormed, AllClosed, Recorded;
      ok := Publish(journal[id].(target := Some(target)));
      ClosedAdvance(closures, old(journal), journal, tree);
      RecordedMore(closures, old(journal), origin, journal, id, []);
      assert closures + [] == closures;
    }

    /** Record the intent to remove the tree at the claim's own quarantine name. */
    method Intend(r: Record) returns (ok: bool)
      requires Valid() && r.id in journal && journal[r.id] == r && IsClaim(r) && !Terminal(r.phase)
      modifies `journal, `closures
      ensures Valid() && closures == old(closures) && Advances(old(journal), journal)
      ensures Touches(old(journal), journal, r.id)
      ensures JournalOk(journal) && SameClaim(r, journal[r.id])
      ensures ok ==> journal[r.id].phase.CleanupIntent? && journal[r.id].target.Some?
      ensures ok ==> journal[r.id] == r.(phase := CleanupIntent, target := journal[r.id].target)
      ensures ok ==> journal[r.id].target.value == if r.phase.CleanupIntent? && r.target.Some? then r.target.value
                     else Own(r.id)
      ensures !ok ==> journal == old(journal)
      ensures steady && Movable(r) && r.identity.Place? ==> ok
    {
      hide WellFormed, AllClosed;
      if !r.phase.CleanupIntent? {
        ok := Step(r.id, CleanupIntent, Some(Own(r.id)), Silent);
      } else if r.target.None? {
        ok := SetTarget(r.id, Own(r.id));
      } else {
        ok := true;
      }
    }

    /** `rename` into quarantine, unless the attempt is cut off first. */
    method Rename(src: Path, id: string) returns (r: Removal)
      requires Valid() && id in journal && !journal[id].phase.Reclaimed? && src in tree
      requires (InResources(src) || InQuarantine(src)) && src != Own(id)
      modifies `tree
      ensures Valid() && tree == if r.Done? then Move(old(tree), src, Own(id)) else old(tree)
      ensures r.Done? ==> CanMove(old(tree), src, Own(id)) && Apart(src, Own(id))
      ensures r.Errored? ==> !CanMove(old(tree), src, Own(id))
      ensures steady ==> !r.Stopped?
    {
      hide JournalOk, AllClosed;
      var cut: bool := *;
      if !steady && cut { return Stopped; }
      if !CanMove(tree, src, Own(id)) { return Errored; }
      RenameApart(tree, src, id);
      MoveWellFormed(tree, src, Own(id));
      QuarantineStays(tree, src, id);
      ClosedMove(closures, journal, tree, src, id);
      tree := Move(tree, src, Own(id));
      r := Done;
    }

    /** The terminal record of a claim that is provably gone. */
    method Close(id: string) returns (ok: bool)
      requires Valid() && id in journal && journal[id].phase.CleanupIntent? && IsClaim(journal[id])
      requires journal[id].identity.Place? && Settled(journal[id], journal, tree)
      modifies `journal, `closures
      ensures Valid() && JournalOk(journal) && Advances(old(journal), journal) && Touches(old(journal), journal, id)
      ensures ok ==> journal[id] == Changed(old(journal)[id], Reclaimed, None, Noted)
      ensures !ok ==> journal == old(journal)
      ensures ok ==> old(journal)[id].observations < MAX_OBSERVATIONS
      ensures steady && old(journal)[id].observations < MAX_OBSERVATIONS ==> ok
      ensures closures == if ok then old(closures) + [Closure(journal[id], tree)] else old(closures)
    {
      hide WellFormed, AllClosed, Advances, Recorded;
      ok := Transition(id, Reclaimed, None, Noted);
      CloseKeeps(old(closures), old(journal), journal, tree, id);
      ghost var added := if ok then [Closure(journal[id], tree)] else [];
      assert ok ==> Logged(added, id) by { if ok { assert added[0] in added; } }
      RecordedMore(old(closures), old(journal), origin, journal, id, added);
      assert closures == old(closures) + added;
    }

    /** Bring the located tree to its quarantine name. */
    method Fetch(r: Record, located: Path) returns (res: Removal)
      requires Valid() && r.id in journal && journal[r.id] == r && IsClaim(r) && r.phase.CleanupIntent?
      requires Locate(tree, r) == At(located)
      modifies `tree
      ensures Valid() && tree == if res.Done? && located != Own(r.id) then Move(old(tree), located, Own(r.id))
              else old(tree)
      ensures res.Done? ==> Own(r.id) in tree && tree[Own(r.id)].Dir?
                            && (located != Own(r.id) ==> Apart(located, Own(r.id))
                                                         && CanMove(old(tree), located, Own(r.id)))
      ensures old(Armed(journal, tree, r.id)) ==>
                Armed(journal, tree, r.id) && GroupState(journal, tree, r.id) && !res.Errored?
      ensures old(Armed(journal, tree, r.id)) && old(Roomy(r, tree, uid)) ==> Roomy(r, tree, uid)
      ensures old(Armed(journal, tree, r.id)) && old(Roomy(r, tree, uid)) && res.Done? ==>
                Enough(tree, Own(r.id), r.identity.stamp.device, uid, 0, 0)
      ensures steady ==> !res.Stopped?
    {
      assert InResources(located) || InQuarantine(located);
      MoveTop(tree, located, Own(r.id));
      if Armed(journal, tree, r.id) { ArmedLocated(journal, tree, r.id, located, uid); }
      hide Valid, Armed, Locate, Enough, Move;
      if located == Own(r.id) { return Done; }
      res := Rename(located, r.id);
    }

    /** `_reclaim_filesystem`: validate, fix the target, validate again, then remove. */
    method ReclaimFilesystem(r: Record) returns (item: Option<Item>)
      requires Valid() && r.id in journal && journal[r.id] == r && IsClaim(r) && !Terminal(r.phase) && Publishable(r)
      modifies `journal, `tree, `closures
      ensures Valid() && Advances(old(journal), journal) && Touches(old(journal), journal, r.id)
      ensures item.Some? ==> item.value.id == r.id && item.value.session == r.session && item.value.kind == r.kind
      ensures item.Some? && item.value.disposition.Recovered? ==>
                && journal[r.id].phase.Reclaimed? && r.identity.Place?
                && r.identity.path !in tree && Own(r.id) !in tree
      ensures if r.identity.Place? then ResourcesKept(old(tree), tree, r.identity.path) else tree == old(tree)
      ensures r.identity.Place? && Tidy(old(tree), r) ==> Elsewhere(old(tree), tree, r)
      ensures journal[r.id].observations <= r.observations + 1
      ensures old(Poised(journal, tree, r.id)) && r.identity.Place? && !Lost(old(tree), tree, r) ==>
                GroupState(journal, tree, r.id) && (old(Roomy(r, tree, uid)) ==> Roomy(r, tree, uid))
      ensures steady && old(Poised(journal, tree, r.id)) && old(r.identity.Place? && Removable(r, tree, uid)) ==>
                item.Some? && item.value.disposition.Recovered?
      ensures steady && Movable(r) ==> item.Some?
      ensures r.identity.Place? ==> Considerate(old(tree), tree, r, uid)
      ensures r.identity.Place? && journal[r.id].phase.Reclaimed? ==> OwnTree(old(tree), r, uid)
    {
      hide Valid, Poised, Armed, Roomy, Lost, Elsewhere, ResourcesKept, Locate, Advances, Publishable, GroupState,
           Ready, Tidy, Considerate, OwnTree, Unobstructed;
      if r.identity.Place? { TreeSame(tree, r, uid); }
      AdvancesSelf(journal);
      PoisedFacts(journal, tree, r.id);
      var l := Locate(tree, r);
      if l.Refused? {
        item := MarkAmbiguous(r, l.reason);
        return;
      }
      ghost var first := journal;
      var ok := Intend(r);
      if !ok { return None; }
      var current := journal[r.id];
      IntendFacts(first, journal, tree, r.id, uid);
      TidyLocated(tree, r, current);
      ghost var second := journal;
      l := Locate(tree, current);
      if l.Refused? {
        item := MarkAmbiguous(current, l.reason);
        AdvancesChain(first, second, journal);
        return;
      }
      ghost var before := tree;
      item := Carry(current, l.path);
      AdvancesChain(first, second, journal);
      SameClaimTree(r, current, before, tree, uid);
    }

    // ---- one group ----

    /** Fix one member's target below the root's quarantine name. */
    method Prepare(root: Record, d: Record) returns (ok: bool)
      requires Valid() && JournalOk(journal) && d.id in journal && journal[d.id] == d
      requires IsClaim(d) && !Terminal(d.phase) && root.identity.Place? && d.identity.Place?
      requires root.identity.path <= d.identity.path && (d.target.Some? ==> d.target.value == Aim(root, d))
      modifies `journal, `closures
      ensures Valid() && closures == old(closures) && Advances(old(journal), journal)
      ensures Touches(old(journal), journal, d.id)
      ensures ok ==> Aimed(root, d, journal[d.id])
      ensures !ok ==> journal == old(journal)
      ensures JournalOk(journal) && (steady && Ready(d) ==> ok)
      ensures old(InGroup(journal, tree, root, d)) ==> GroupState(journal, tree, root.id)
    {
      hide Valid, GroupState, InGroup, Advances, Publishable, Ready;
      PrepareFacts(root, d);
      ghost var before := journal;
      if !d.phase.CleanupIntent? {
        ok := Step(d.id, CleanupIntent, Some(Aim(root, d)), Silent);
      } else if d.target.None? {
        ok := SetTarget(d.id, Aim(root, d));
      } else {
        ok := true;
        AdvancesSelf(journal);
      }
      if InGroup(before, tree, root, d) { PrepareKeeps(before, tree, root, d, journal); }
    }

    /** No member's recorded target contradicts the one the root's rename gives it. */
    method TargetsAgree(g: Group) returns (ready: bool)
      requires ProperGroup(g)
      ensures ready <==> forall d :: d in g.members && d.target.Some? ==> d.target.value == Aim(g.root, d)
    {
      for i := 0 to |g.members|
        invariant forall j :: 0 <= j < i && g.members[j].target.Some? ==>
                                g.members[j].target.value == Aim(g.root, g.members[j])
      {
        var d := g.members[i];
        if d.target.Some? && d.target.value != Aim(g.root, d) { return false; }
      }
      ready := true;
    }

    /** Fix every member's target before the root is touched. */
    method PrepareAll(g: Group) returns (ok: bool)
      requires Valid() && JournalOk(journal) && ProperGroup(g) && Untouched(journal, g)
      requires forall d :: d in g.members && d.target.Some? ==> d.target.value == Aim(g.root, d)
      modifies `journal, `closures
      ensures Valid() && JournalOk(journal) && closures == old(closures) && Advances(old(journal), journal)
      ensures TouchesGroup(old(journal), journal, g)
      ensures g.root.id in journal && journal[g.root.id] == g.root
      ensures SameNotes(old(journal), journal)
      ensures ok ==> AllPrepared(journal, g, |g.members|)
      ensures old(WholeGroup(journal, tree, g)) ==> WholeGroup(journal, tree, g)
      ensures steady && (forall d :: d in g.members ==> Ready(d)) ==> ok
    {
      hide Valid, JournalOk, Advances, WholeGroup, InGroup, Preparing, ProperGroup, TouchesGroup, AllPrepared;
      PrepareStart(journal, tree, g);
      for i := 0 to |g.members|
        invariant Valid() && JournalOk(journal) && closures == old(closures)
        invariant Preparing(old(journal), journal, tree, g, i)
      {
        ghost var before := journal;
        PrepareNext(old(journal), journal, tree, g, i);
        ok := Prepare(g.root, g.members[i]);
        PreparedNext(old(journal), before, tree, g, i, journal);
        PreparingMeans(old(journal), journal, tree, g, if ok then i + 1 else i);
        if !ok { return; }
      }
      PreparingMeans(old(journal), journal, tree, g, |g.members|);
      ok := true;
    }

    /** Record the end of every member below a root that is gone. */
    method CloseAll(g: Group) returns (ok: bool, added: seq<Item>)
      requires Valid() && JournalOk(journal) && WellFormed(tree) && ProperGroup(g) && DistinctIds(g)
      requires AllPrepared(journal, g, |g.members|)
      requires forall d :: d in g.members ==> InResources(d.identity.path)
      requires g.root.id in journal && journal[g.root.id].phase.Reclaimed? && g.root.identity.path != []
      requires g.root.identity.path !in tree && Own(g.root.id) !in tree
      modifies `journal, `closures
      ensures Valid() && JournalOk(journal) && Advances(old(journal), journal) && TouchesGroup(old(journal), journal, g)
      ensures ok ==> |added| == |g.members|
      ensures ok ==> forall i :: 0 <= i < |added| ==> ClosedAs(g.members[i], added[i], journal)
      ensures steady && (forall d :: d in g.members ==> d.observations < MAX_OBSERVATIONS) ==> ok
    {
      hide Valid, JournalOk, Advances, Settled, WellFormed, Closing, ProperGroup, TouchesGroup, AllPrepared, ClosedAs,
           DistinctIds;
      added := [];
      CloseStart(journal, g);
      for i := 0 to |g.members|
        invariant |added| == i
        invariant Valid() && JournalOk(journal) && Closing(old(journal), journal, g, added)
      {
        ghost var before := journal;
        CloseNext(old(journal), journal, tree, g, added);
        ok := Close(g.members[i].id);
        if !ok {
          ClosingMeans(old(journal), journal, g, added);
          return;
        }
        ghost var done := added;
        added := added + [ItemOf(journal[g.members[i].id], Recovered, None)];
        assert added[..|added| - 1] == done;
        ClosedNext(old(journal), before, g, journal, added);
      }
      ClosingMeans(old(journal), journal, g, added);
      ok := true;
    }

    /** One group: fix the members' targets, remove the root's tree, then close the members. */
    method ReclaimGroup(g: Group) returns (ok: bool, added: seq<Item>)
      requires Valid() && JournalOk(journal) && ProperGroup(g) && Untouched(journal, g)
      requires forall r :: Holds(g, r) ==> InResources(r.identity.path)
      modifies `journal, `tree, `closures
      ensures Valid() && JournalOk(journal) && Advances(old(journal), journal) && TouchesGroup(old(journal), journal, g)
      ensures ResourcesKept(old(tree), tree, g.root.identity.path)
      ensures ok ==> Reported(g, added, journal)
      ensures GroupEnd(old(journal), old(tree), journal, tree, g, uid, ok, added, steady)
    {
      hide Elsewhere, Lost, ResourcesKept, Kept, SameNotes, Valid, JournalOk, Advances, ProperGroup, Touches,
           TouchesGroup, WholeGroup, GroupState, AllPrepared, Poised, Roomy, Reported, DistinctIds, Clearable,
           Untouched, GroupRecovered, WellFormed, Publishable, ClosedAs, Fit, Movable, Ready, Tidy,
           Considerate, OwnTree;
      added := [];
      GroupStart(journal, tree, g, uid);
      TreeSame(tree, g.root, uid);
      ghost var first := journal;
      var ready := TargetsAgree(g);
      if !ready {
        var item := MarkAmbiguous(g.root, GroupCleanupTargetConflict);
        TouchRoot(first, first, journal, g);
        ValidMeans();
        ok := item.Some?;
        if ok {
          added := [item.value];
          ReportRoot(g, item.value, journal);
        }
        return;
      }
      ok := PrepareAll(g);
      WholeMeans(journal, tree, g);
      PreparedKept(first, journal, tree, g, uid);
      if !ok { return; }
      ghost var prepared, before := journal, tree;
      GroupPrepared(first, journal, tree, g, uid);
      var item := ReclaimFilesystem(g.root);
      if WholeGroup(first, before, g) && !Lost(before, tree, g.root) {
        GroupKept(first, prepared, before, journal, tree, g, uid);
      }
      AdvancesChain(first, prepared, journal);
      TouchRoot(first, prepared, journal, g);
      ValidMeans();
      if item.None? { return false, []; }
      added := [item.value];
      if item.value.disposition.Recovered? {
        ghost var rooted := journal;
        if WholeGroup(first, before, g) { GoneLost(first, before, tree, g); }
        StillPrepared(prepared, journal, g);
        var more: seq<Item>;
        ok, more := CloseAll(g);
        AdvancesChain(first, rooted, journal);
        TouchesChain(first, rooted, journal, g);
        added := added + more;
        if ok { ReportAll(g, item.value, more, rooted, journal); }
      } else {
        ReportRoot(g, item.value, journal);
      }
    }

    // ---- claims without a directory ----

    method BeginCleanup(id: string) returns (ok: bool)
      requires Valid() && id in journal
      modifies `journal, `closures
      ensures Valid() && closures == old(closures) && Stepped(old(journal), journal, id)
      ensures ok ==> journal[id].phase.CleanupIntent? || Terminal(journal[id].phase)
      ensures ok && !Terminal(old(journal)[id].phase) ==> journal[id].phase.CleanupIntent?
      ensures journal[id] == old(journal)[id].(phase := journal[id].phase)
      ensures steady && Movable(old(journal)[id]) && Known(old(journal)[id]) ==> ok
      ensures old(journal)[id].phase.CleanupIntent? || Terminal(old(journal)[id].phase) ==> ok
    {
      StepFits(id);
      hide Valid, JournalOk, Advances, Publishable, Next;
      AdvancesSelf(journal);
      if journal[id].phase.CleanupIntent? || Terminal(journal[id].phase) { return true; }
      ok := Step(id, CleanupIntent, None, Silent);
    }

    /** `finish_cleanup` with an incomplete cleanup. */
    method FinishFailed(id: string) returns (ok: bool)
      requires Valid() && id in journal
      modifies `journal, `closures
      ensures Valid() && closures == old(closures) && Stepped(old(journal), journal, id)
      ensures ok ==> journal[id].phase.CleanupFailed? || Terminal(journal[id].phase)
      ensures ok && !Terminal(old(journal)[id].phase) ==> journal[id].phase.CleanupFailed?
      ensures old(journal)[id].phase.CleanupFailed? || Terminal(old(journal)[id].phase) ==>
                ok && journal == old(journal)
      ensures steady && old(journal)[id].phase.CleanupIntent? && Movable(old(journal)[id]) ==>
                Known(old(journal)[id]) ==> ok
    {
      StepFits(id);
      hide Valid, JournalOk, Advances, Publishable, Next;
      AdvancesSelf(journal);
      if Terminal(journal[id].phase) || journal[id].phase.CleanupFailed? { return true; }
      if !journal[id].phase.CleanupIntent? { return false; }
      ok := Step(id, CleanupFailed, None, Silent);
    }

    /** Begin and fail at once: the claim stays retryable. */
    method Defer(r: Record, reason: Reason) returns (item: Option<Item>)
      requires Valid() && r.id in journal && journal[r.id] == r
      modifies `journal, `closures
      ensures Valid() && closures == old(closures) && Stepped(old(journal), journal, r.id)
      ensures item.Some? ==> item.value.disposition.Failed? && Reports(r, item.value, journal)
      ensures item.Some? && !Terminal(r.phase) ==> journal[r.id].phase.CleanupFailed?
      ensures item.Some? ==> item.value.phase == journal[r.id].phase && item.value.reason == Some(reason)
      ensures steady && Movable(r) && Known(r) && !Terminal(r.phase) ==> item.Some?
    {
      hide Valid, JournalOk, Advances, Publishable;
      var ok := BeginCleanup(r.id);
      ghost var begun := journal;
      if !ok { return None; }
      ok := FinishFailed(r.id);
      SteppedChain(old(journal), begun, journal, r.id);
      if !ok { return None; }
      item := Some(Item(r.id, r.session, r.kind, journal[r.id].phase, Failed, Some(reason)));
    }

    /** Begin cleanup and record its end, for a process or a cgroup seen to be empty. */
    method Finish(r: Record, note: Note) returns (item: Option<Item>)
      requires Valid() && r.id in journal && SameClaim(r, journal[r.id]) && !IsClaim(r)
      modifies `journal, `closures
      ensures Valid() && closures == old(closures) && Stepped(old(journal), journal, r.id)
      ensures item.Some? ==> item.value.disposition.Recovered? && Reports(r, item.value, journal)
      ensures item.Some? ==> item.value.phase.Reclaimed? && item.value.reason.None?
      ensures item.Some? ==> journal[r.id].evidence == old(journal)[r.id].evidence
                             && (note.SeenEmpty? ==> journal[r.id].emptied)
      ensures steady && old(journal)[r.id].observations < MAX_OBSERVATIONS ==>
                old(journal)[r.id].phase.CleanupIntent?
                || (Movable(old(journal)[r.id]) && Known(old(journal)[r.id]) && !Terminal(old(journal)[r.id].phase)) ==>
                  item.Some?
    {
      hide Valid, JournalOk, Publishable, Next, Movable, Known;
      var ok := BeginCleanup(r.id);
      ghost var begun := journal;
      if !ok { return None; }
      CloseFits(r.id, note);
      ok := Step(r.id, Reclaimed, None, note);
      SteppedChain(old(journal), begun, journal, r.id);
      if !ok { return None; }
      item := Some(Item(r.id, r.session, r.kind, Reclaimed, Recovered, None));
    }

    /** `_reclaim_group_process`: a covered process ends only with its covering cgroup. */
    method ReclaimProcess(r: Record) returns (item: Option<Item>)
      requires Valid() && r.id in journal && journal[r.id] == r && !IsClaim(r) && r.identity.Covered?
      modifies `journal, `closures
      ensures Valid() && closures == old(closures) && Stepped(old(journal), journal, r.id)
      ensures item.Some? ==> Reports(r, item.value, journal) && !item.value.disposition.Unconfirmed?
                             && !item.value.disposition.Retained?
      ensures item.Some? ==>
                (item.value.disposition.Recovered? <==>
                && r.boot == boot == r.identity.boot && r.identity.started && !r.phase.AllocationIntent?
                && r.identity.cgroup in old(journal)
                && var group := old(journal)[r.identity.cgroup];
                   && group.kind.Cgroup? && group.grouped && group.owned && group.phase.Reclaimed? && group.emptied
                   && group.session == r.session && group.controller == r.controller && group.boot == boot
                   && group.identity.Place? && r.identity.digest == (group.identity.path, group.identity.stamp))
      ensures item.Some? ==> (item.value.disposition.Failed? <==>
                old(Linked(journal, r, boot)) && !Terminal(old(journal)[r.identity.cgroup].phase))
      ensures steady && Movable(r) && !Terminal(r.phase) ==> item.Some?
      ensures item.Some? && !Terminal(r.phase) ==>
                (item.value.disposition.Recovered? <==> journal[r.id].phase.Reclaimed?)
    {
      hide Valid, JournalOk, Advances, Publishable;
      if !Linked(journal, r, boot) {
        item := MarkAmbiguous(r, ProcessGroupLinkUnconfirmed);
        return;
      }
      var group := journal[r.identity.cgroup];
      if group.phase.Ambiguous? {
        item := MarkAmbiguous(r, CoveringCgroupAmbiguous);
      } else if !group.phase.Reclaimed? {
        item := Defer(r, CoveringCgroupNotReclaimed);
      } else if !group.emptied {
        item := MarkAmbiguous(r, CoveringCgroupEmptyUnconfirmed);
      } else {
        item := Finish(r, Noted);
      }
    }

    /** `_reclaim_cgroup`, with what the kernel shows of the cgroup left open. */
    method ReclaimCgroup(r: Record) returns (item: Option<Item>)
      requires Valid() && r.id in journal && journal[r.id] == r && r.kind.Cgroup? && !Terminal(r.phase)
      modifies `journal, `closures
      ensures Valid() && closures == old(closures) && Stepped(old(journal), journal, r.id)
      ensures item.Some? ==> Reports(r, item.value, journal) && !item.value.disposition.Unconfirmed?
                             && !item.value.disposition.Retained?
      ensures item.Some? ==>
                (item.value.disposition.Recovered? <==>
                && r.identity.Place? && r.boot == boot && r.id in kernel
                && (kernel[r.id].Quiet?
                    || (kernel[r.id].Missing? && r.grouped && r.evidence
                        && (r.phase.CleanupIntent? || r.phase.CleanupFailed?))))
      ensures item.Some? ==> (item.value.disposition.Failed? <==>
                                r.identity.Place? && r.boot == boot && r.id in kernel && kernel[r.id].Busy?)
      ensures item.Some? ==> (item.value.disposition.Recovered? <==> journal[r.id].phase.Reclaimed?)
      ensures item.Some? && item.value.disposition.Recovered? ==> journal[r.id].emptied
      ensures steady && Movable(r) ==> item.Some?
    {
      hide Valid, JournalOk, Advances, Publishable;
      var sight := Seen(kernel, r.id);
      if !r.identity.Place? || r.boot != boot || sight.Strange? {
        item := MarkAmbiguous(r, CgroupIdentityUnconfirmed);
      } else if sight.Missing? {
        if r.grouped && (r.phase.CleanupIntent? || r.phase.CleanupFailed?) && r.evidence {
          item := Finish(r, SeenEmpty);
        } else {
          item := MarkAmbiguous(r, CgroupIdentityUnconfirmed);
        }
      } else if sight.Busy? {
        item := Defer(r, CgroupCleanupFailed);
      } else {
        item := FinishCgroup(r);
      }
    }

    /** The emptiness of a grouped cgroup is on record before it is removed. */
    method FinishCgroup(r: Record) returns (item: Option<Item>)
      requires Valid() && r.id in journal && journal[r.id] == r && r.kind.Cgroup? && !Terminal(r.phase)
      modifies `journal, `closures
      ensures Valid() && closures == old(closures) && Stepped(old(journal), journal, r.id)
      ensures item.Some? ==> Reports(r, item.value, journal) && item.value.disposition.Recovered?
      ensures item.Some? ==> journal[r.id].emptied && (r.grouped ==> journal[r.id].evidence)
      ensures steady && Movable(r) && r.identity.Place? ==> item.Some?
    {
      hide Valid, JournalOk, Publishable;
      var ok := BeginCleanup(r.id);
      ghost var begun := journal;
      if !ok { return None; }
      if r.grouped {
        ok := KeepEvidence(r.id);
        SteppedChain(old(journal), begun, journal, r.id);
        if !ok { return None; }
      }
      ghost var kept := journal;
      item := Finish(r, SeenEmpty);
      SteppedChain(old(journal), kept, journal, r.id);
    }

    method KeepEvidence(id: string) returns (ok: bool)
      requires Valid() && id in journal && journal[id].phase.CleanupIntent?
      modifies `journal
      ensures Valid() && Stepped(old(journal), journal, id)
      ensures ok ==> journal[id] == old(journal)[id].(evidence := true)
      ensures steady && old(journal)[id].kind.Cgroup? && old(journal)[id].grouped ==> ok
    {
      EvidenceFits(id);
      hide WellFormed, AllClosed, Publishable, Recorded;
      ok := Publish(journal[id].(evidence := true));
      ClosedAdvance(closures, old(journal), journal, tree);
      RecordedMore(closures, old(journal), origin, journal, id, []);
      assert closures + [] == closures;
    }

    // ---- reviewing the snapshot ----

    /** What the first pass makes of one record: a removal plan, or a result and perhaps a guard. */
    method Review(r: Record, delegated: bool) returns (ok: bool, verdict: Verdict)
      requires Valid() && r.id in journal && journal[r.id] == r && Publishable(r)
      modifies `journal, `closures
      ensures Valid() && closures == old(closures) && Stepped(old(journal), journal, r.id)
      ensures ok && verdict.Planned? ==> Plannable(tree, r) && journal == old(journal)
      ensures ok && verdict.Outcome? ==> Reports(r, verdict.item, journal) && GuardFits(r, verdict)
      ensures ok && verdict.Outcome? ==> Judged(r, verdict.item) && Told(r, verdict.item, journal)
      ensures ok && verdict.Outcome? ==> Because(tree, r, verdict.item.reason)
      ensures ok && verdict.Outcome? && verdict.guard.Some? && r.owned && !Terminal(r.phase) ==>
                verdict.guard.value.record
                == if (r.kind.Process? && r.grouped) || (r.kind.Cgroup? && delegated) then journal[r.id] else r
      ensures Plannable(tree, r) ==> ok && verdict.Planned? && journal == old(journal)
      ensures r.owned && r.phase.Reclaimed? ==> ok && verdict.Outcome? && verdict.guard.None? && journal == old(journal)
      ensures steady && (Terminal(r.phase) || Movable(r)) ==> ok
    {
      hide Valid, JournalOk, Advances, Publishable, Locate;
      AdvancesSelf(journal);
      var item: Option<Item>;
      var guard := Guard(RecordPath(r), r);
      if !r.owned {
        item := MarkAmbiguous(r, ForeignRootOrUid);
      } else if r.phase.Reclaimed? {
        item := Some(if r.kind.Cgroup? && !r.evidence then ItemOf(r, Unconfirmed, Some(TerminalCountersNotRetained))
                     else ItemOf(r, Recovered, None));
        return true, Outcome(item.value, None);
      } else if r.phase.RetainedByPolicy? && !r.recoverable {
        item := Some(ItemOf(r, Retained, Some(KeptByPolicy)));
      } else if r.phase.Ambiguous? {
        item := Some(ItemOf(r, Doubtful, Some(OwnershipAmbiguous)));
      } else if !IsClaim(r) {
        item := ReviewUnplaced(r, delegated);
        if item.None? { return false, Planned; }
        var reread := (r.kind.Process? && r.grouped) || (r.kind.Cgroup? && delegated);
        return true, Outcome(item.value, if item.value.disposition.Recovered? then None
                             else Some(Guard(None, if reread then journal[r.id] else r)));
      } else {
        var l := Locate(tree, r);
        if l.At? { return true, Planned; }
        item := MarkAmbiguous(r, l.reason);
      }
      if item.None? { return false, Planned; }
      return true, Outcome(item.value, Some(guard));
    }

    method ReviewUnplaced(r: Record, delegated: bool) returns (item: Option<Item>)
      requires Valid() && r.id in journal && journal[r.id] == r && !IsClaim(r) && !Terminal(r.phase)
      requires Publishable(r)
      modifies `journal, `closures
      ensures Valid() && closures == old(closures) && Stepped(old(journal), journal, r.id)
      ensures item.Some? ==> Reports(r, item.value, journal) && !item.value.disposition.Unconfirmed?
      ensures journal[r.id].id == r.id && journal[r.id].session == r.session
      ensures item.Some? ==> !item.value.disposition.Retained?
      ensures item.Some? ==> (item.value.disposition.Recovered? <==> journal[r.id].phase.Reclaimed?)
      ensures steady && Movable(r) ==> item.Some?
      ensures item.Some? && !(r.kind.Process? && r.grouped) && !(r.kind.Cgroup? && delegated) ==>
                (item.value.disposition.Failed? <==> r.kind.Cgroup? && r.phase.CleanupFailed?)
                && !item.value.disposition.Recovered?
    {
      hide Valid;
      if r.kind.Process? && r.grouped {
        item := ReclaimProcess(r);
      } else if r.kind.Cgroup? && delegated {
        item := ReclaimCgroup(r);
      } else if r.kind.Cgroup? && r.phase.CleanupFailed? {
        item := Some(ItemOf(r, Failed, Some(PriorCleanupFailed)));
      } else {
        item := MarkAmbiguous(r, PostRestartIdentityUnavailable);
      }
    }

    // ---- one whole attempt ----

    method Listing(ids: set<string>) returns (rs: seq<Record>)
      requires JournalOk(journal) && ids <= journal.Keys
      ensures DistinctRecords(rs) && forall id :: id in ids ==> journal[id] in rs
      ensures forall i :: 0 <= i < |rs| ==> rs[i].id in ids && journal[rs[i].id] == rs[i]
    {
      var todo := ids;
      rs := [];
      while todo != {}
        invariant todo <= ids && DistinctRecords(rs)
        invariant forall i :: 0 <= i < |rs| ==> rs[i].id in ids - todo && journal[rs[i].id] == rs[i]
        invariant forall id :: id in ids - todo ==> journal[id] in rs
      {
        var id :| id in todo;
        rs := rs + [journal[id]];
        todo := todo - {id};
      }
    }

    /** The journal in any order, cgroups first. */
    method TakeSnapshot() returns (records: seq<Record>)
      requires JournalOk(journal)
      ensures Snapshot(journal, records)
    {
      var cgroups := set id | id in journal && journal[id].kind.Cgroup?;
      var first := Listing(cgroups);
      var rest := Listing(journal.Keys - cgroups);
      records := first + rest;
    }

    /** The first pass over the snapshot. */
    method ReviewAll(records: seq<Record>, delegated: bool)
        returns (ok: bool, plans: seq<Record>, guards: seq<Guard>, items: seq<Item>, ghost open: set<Record>)
      requires Valid() && JournalOk(journal) && Snapshot(journal, records)
      modifies `journal, `closures
      ensures Valid() && JournalOk(journal) && closures == old(closures) && Advances(old(journal), journal)
      ensures ok ==> Accounted(journal, Set(records), open, items) && Reviewed(tree, records, |records|, open, plans)
                     && Shielded(records, |records|, plans, guards, items) && AllTold(journal, records, items)
      ensures ok ==> forall r :: r in plans ==> Plannable(tree, r) && !Listed(items, r.id)
      ensures ok ==> forall i :: 0 <= i < |records| && Plannable(tree, records[i]) ==> records[i] in plans
      ensures old(Fleet(journal, tree)) ==> ok && journal == old(journal) && guards == []
      ensures steady && old(AllMovable(journal)) ==> ok
    {
      hide Valid, JournalOk, Advances, FirstPass, Stepped, Reports, Publishable, Plannable, Fleet, GuardFits, Judged,
           DistinctRecords, Accounted, Reviewed, Shielded, Set, Told, AllTold, Listed, Movable;
      RecordsMovable(journal, records);
      PassStart(journal, tree, records);
      plans, guards, items, open := [], [], [], Set(records);
      for i := 0 to |records|
        invariant Valid() && JournalOk(journal) && closures == old(closures) && Advances(old(journal), journal)
        invariant FirstPass(journal, tree, records, i, open, plans, guards, items)
        invariant forall j :: 0 <= j < i && Plannable(tree, records[j]) ==> records[j] in plans
        invariant old(Fleet(journal, tree)) ==> journal == old(journal) && guards == []
      {
        ghost var before := journal;
        PassNext(journal, tree, records, i, open, plans, guards, items);
        var verdict: Verdict;
        ok, verdict := Review(records[i], delegated);
        ReviewStepped(old(journal), before, journal, records[i].id);
        ValidMeans();
        if !ok { return; }
        match verdict
        case Planned =>
          PassPlan(journal, tree, records, i, open, plans, guards, items);
          plans := plans + [records[i]];
        case Outcome(item, guard) =>
          PassOutcome(before, journal, tree, records, i, open, plans, guards, items, verdict);
          items := items + [item];
          open := open - {records[i]};
          if guard.Some? { guards := guards + [guard.value]; }
      }
      PassDone(journal, tree, records, open, plans, guards, items);
      ok := true;
    }

    /** A blocked plan: retryable when every blocker failed before, doubtful otherwise. */
    method Hold(r: Record, blockers: seq<Guard>) returns (item: Option<Item>)
      requires Valid() && r.id in journal && journal[r.id] == r && !Terminal(r.phase)
      modifies `journal, `closures
      ensures Valid() && closures == old(closures) && Stepped(old(journal), journal, r.id)
      ensures item.Some? ==> Reports(r, item.value, journal)
                             && (item.value.disposition.Failed? || item.value.disposition.Doubtful?)
      ensures item.Some? ==> (item.value.disposition.Failed? <==>
                                forall g :: g in blockers ==> g.record.phase.CleanupFailed?)
      ensures steady && Movable(r) && Known(r) ==> item.Some?
    {
      hide Valid;
      if forall g :: g in blockers ==> g.record.phase.CleanupFailed? {
        item := Defer(r, DescendantCleanupFailed);
      } else {
        item := MarkAmbiguous(r, ProtectedDescendant);
      }
    }

    /** The second pass: plans at or above a guard, or in its session, are held back. */
    method HoldBlocked(plans: seq<Record>, guards: seq<Guard>, before: seq<Item>, ghost all: set<Record>,
                       ghost start: set<Record>)
        returns (ok: bool, safe: seq<Record>, items: seq<Item>)
      requires Valid() && JournalOk(journal) && Accounted(journal, all, start, before)
      requires Reviewed(tree, plans, 0, start, []) && AllPlans(plans)
      requires forall i :: 0 <= i < |plans| ==> Plannable(tree, plans[i])
      modifies `journal, `closures
      ensures Valid() && JournalOk(journal) && closures == old(closures) && Advances(old(journal), journal)
      ensures ok ==> Accounted(journal, all, Set(safe), items) && Unblocked(plans, guards, safe) && Distinct(safe)
      ensures ok ==> forall r :: r in safe ==> Plannable(tree, r)
      ensures guards == [] ==> ok && journal == old(journal) && safe == plans && items == before
      ensures TouchesPlans(old(journal), journal, plans)
      ensures steady && (forall r :: r in plans ==> Movable(r)) ==> ok
    {
      hide Valid, JournalOk, Advances, Accounted, Reviewed, Stepped, Reports, Plannable, Set, TouchesPlans;
      PlansUntouched(journal, plans);
      ghost var open := start;
      AdvancesSelf(journal);
      safe, items := [], before;
      for i := 0 to |plans|
        invariant Valid() && JournalOk(journal) && closures == old(closures) && Advances(old(journal), journal)
        invariant Accounted(journal, all, open, items) && Reviewed(tree, plans, i, open, safe)
        invariant Sifted(plans, guards, i, safe) && TouchesPlans(old(journal), journal, plans)
        invariant guards == [] ==> journal == old(journal) && safe == plans[..i] && items == before
      {
        ghost var now := journal;
        var r := plans[i];
        HoldNext(journal, tree, all, plans, i, open, safe, items);
        assert r in plans && Known(r);
        var blockers := Blockers(guards, r);
        if blockers != [] {
          BlockersThere(guards, r);
          var item := Hold(r, blockers);
          ReviewStepped(old(journal), now, journal, r.id);
          HoldStepped(old(journal), now, journal, plans, i);
          ValidMeans();
          if item.None? { return false, safe, items; }
          AccountOne(now, journal, all, open, items, r, item.value);
          ReviewOutcome(tree, plans, i, open, safe);
          SiftOut(plans, guards, i, safe);
          items := items + [item.value];
          open := open - {r};
        } else {
          ReviewPlan(tree, plans, i, open, safe);
          SiftIn(plans, guards, i, safe);
          safe := safe + [r];
          assert plans[..i + 1] == plans[..i] + [r];
        }
      }
      SiftDone(journal, tree, plans, guards, open, safe);
      ok := true;
    }

    /** The last pass: one group after another. */
    method RemoveGroups(groups: seq<Group>, before: seq<Item>, ghost all: set<Record>, ghost safe: seq<Record>)
        returns (ok: bool, items: seq<Item>)
      requires Valid() && JournalOk(journal) && Accounted(journal, all, Set(safe), before) && Grouping(safe, groups)
      requires forall r :: r in safe ==> IsPlan(r) && InResources(r.identity.path) && !Terminal(r.phase)
      modifies `journal, `tree, `closures
      ensures Valid() && JournalOk(journal) && Advances(old(journal), journal)
      ensures RootsOnly(old(tree), tree, groups, |groups|) && TouchesGroups(old(journal), journal, groups)
      ensures ok ==> Accounted(journal, all, {}, items)
      ensures old(Underway(journal, tree, journal, tree, groups, 0, uid)) ==>
                && Fates(old(journal), old(tree), journal, tree, groups, uid)
                && (steady && AllFit(groups) ==> ok && DoneAll(old(journal), old(tree), journal, tree, groups, uid))
      ensures AllUnobstructed(old(tree), groups) ==> Conserved(old(tree), tree, groups, uid)
      ensures old(Underway(journal, tree, journal, tree, groups, 0, uid)) && steady
              && old(AllClearable(journal, tree, groups, uid)) ==>
                ok && (AllRecovered(items) <==> AllRecovered(before))
    {
      hide Valid, JournalOk, Advances, Accounted, GroupEnd, Remain, Grouping, Set, ProperGroup, TouchesGroup, Untouched,
           Reported, Held, Underway, AllFit, Fates, DoneBefore, RootsOnly, ResourcesKept, TouchesGroups,
           Conserving, Considerate, AllUnobstructed, Conserved, AllClearable, AllRecovered;
      AdvancesSelf(journal);
      ok, items := true, before;
      ghost var open := Set(safe);
      RemainStart(safe, groups);
      NoneDone(journal, tree, groups, uid);
      NoneTouched(journal, groups);
      ConservingStart(tree, groups, uid);
      RootsNone(tree, groups);
      ghost var first, start := journal, tree;
      ghost var whole := Underway(first, start, first, start, groups, 0, uid);
      ghost var clear := steady && whole && AllClearable(first, start, groups, uid);
      var k := 0;
      while k < |groups|
        invariant 0 <= k <= |groups| && ok
        invariant Valid() && JournalOk(journal) && Advances(first, journal) && RootsOnly(start, tree, groups, k)
        invariant Accounted(journal, all, open, items) && Remain(groups, k, open)
        invariant TouchesGroups(first, journal, groups)
        invariant AllUnobstructed(start, groups) ==> Conserving(start, tree, groups, k, uid)
        invariant whole ==> Underway(first, start, journal, tree, groups, k, uid)
        invariant steady && whole && AllFit(groups) ==> DoneBefore(first, start, journal, tree, groups, k, uid)
        invariant clear ==> (AllRecovered(items) <==> AllRecovered(before))
      {
        ghost var now, was := journal, tree;
        var g := groups[k];
        RemainNext(journal, all, groups, k, open, items);
        LaterRoots(journal, all, groups, k, open, items);
        var added: seq<Item>;
        ok, added := ReclaimGroup(g);
        AdvancesChain(first, now, journal);
        RootsNext(start, was, tree, groups, k);
        TouchesNext(first, now, journal, groups, k);
        EndConsiderate(now, was, journal, tree, g, uid, ok, added, steady);
        if AllUnobstructed(start, groups) {
          ConservingNext(start, was, tree, groups, k, uid);
          if !ok { ConservedMeans(start, tree, groups, k + 1, uid); }
        }
        ValidMeans();
        if clear {
          ClearedNext(first, start, now, was, journal, tree, groups, k, uid, ok, added);
          AllRecoveredMore(items, added);
        }
        if whole { UnderwayNext(first, start, now, was, journal, tree, groups, k, uid, ok, added, steady); }
        if steady && whole && AllFit(groups) {
          DoneNext(first, start, now, was, journal, tree, groups, k, uid, ok, added);
        }
        if !ok {
          if whole { UnderwayFates(first, start, journal, tree, groups, k + 1, uid); }
          RootsMore(start, tree, groups, k + 1);
          return;
        }
        RemainOn(now, journal, all, groups, k, open, items, added);
        items := items + added;
        open := open - Held(g);
        k := k + 1;
      }
      RemainDone(groups, open, safe);
      if AllUnobstructed(start, groups) { ConservedMeans(start, tree, groups, k, uid); }
      if whole { UnderwayFates(first, start, journal, tree, groups, k, uid); }
    }

    /** The first two passes and the grouping: what will be removed, over the whole journal. */
    method PlanRemoval(delegated: bool)
        returns (ok: bool, items: seq<Item>, groups: seq<Group>, ghost safe: seq<Record>)
      requires Valid()
      modifies `journal, `closures
      ensures Valid() && JournalOk(journal) && Advances(old(journal), journal)
      ensures ok ==> RemovalSafe(tree, old(journal), journal, groups)
      ensures ok ==> Accounted(journal, old(journal).Values, Set(safe), items) && Grouping(safe, groups)
      ensures ok ==> forall r :: r in safe ==> IsPlan(r) && InResources(r.identity.path) && !Terminal(r.phase)
      ensures steady && old(AllMovable(journal)) ==> ok
      ensures old(Fleet(journal, tree)) ==>
                && ok && journal == old(journal) && FleetPlan(journal, groups)
                && AllWhole(journal, tree, groups) && AllTidy(tree, groups)
                && (AllRecovered(items) <==> Evidenced(journal))
                && (RoomyFleet(journal, tree, uid) && Spare(journal, 0) ==>
                      AllClearable(journal, tree, groups, uid) && AllFit(groups))
    {
      hide Valid, JournalOk, Advances, Accounted, Reviewed, Grouping, Unblocked, Plannable, Fleet, RoomyFleet, Spare,
           Shielded, Snapshot, Set, ProperGroup, AllWhole, AllTidy, AllFit, AllClearable, FleetPlan, RemovalSafe,
           DistinctRecords, Agreed, AllTold, Listed, TouchesPlans, AllMovable, Evidenced, AllRecovered;
      items, groups, safe := [], [], [];
      ghost var first := journal;
      ValidMeans();
      AdvancesSelf(journal);
      var records := TakeSnapshot();
      SnapshotAll(journal, records);
      var plans: seq<Record>, guards: seq<Guard>;
      ghost var open: set<Record>;
      ok, plans, guards, items, open := ReviewAll(records, delegated);
      if !ok { return; }
      ghost var second, judged := journal, items;
      SecondStart(journal, tree, Set(records), records, open, plans, items);
      PlannedAre(records, plans, tree);
      ResultsAgree(tree, journal, records, plans, guards, judged);
      if Fleet(first, tree) { FleetReported(first, tree, records, open, plans, guards, items); }
      PlansMovable(first, tree, records, plans);
      var unblocked: seq<Record>;
      ok, unblocked, items := HoldBlocked(plans, guards, items, Set(records), open);
      safe := unblocked;
      AdvancesChain(first, second, journal);
      if !ok { return; }
      AgreedStill(tree, first, second, journal, records, plans, judged);
      ThirdStart(tree, safe);
      groups := GroupPlans(unblocked);
      RemovalSet(tree, first, journal, records, plans, guards, judged, safe, groups);
      if Fleet(first, tree) { FleetPlanned(first, tree, records, plans, groups, uid); }
    }

    /** `reclaim`: review the journal, hold back what is blocked, group the rest and remove it. */
    method Reclaim(delegated: bool) returns (ok: bool, items: seq<Item>, ghost groups: seq<Group>)
      requires Valid()
      modifies `journal, `tree, `closures
      ensures Valid() && Advances(old(journal), journal) && ResourcesSafe(old(journal), journal, old(tree), tree)
      ensures ok ==> Accounted(journal, old(journal).Values, {}, items)
      ensures RemovalSafe(old(tree), old(journal), journal, groups) || (!ok && groups == [] && tree == old(tree))
      ensures steady && old(AllMovable(journal)) ==> RemovalSafe(old(tree), old(journal), journal, groups)
      ensures Orderly(old(journal), old(tree), groups) ==>
                LocalEnd(old(journal), old(tree), journal, tree, groups, uid, ok, steady)
      ensures AllUnobstructed(old(tree), groups) ==> Conserved(old(tree), tree, groups, uid)
      ensures old(Fleet(journal, tree)) && !Torn(old(Moment(journal, tree)), Moment(journal, tree)) ==>
                && Fleet(journal, tree) && NotesGrow(old(journal), journal)
                && (old(RoomyFleet(journal, tree, uid)) ==> RoomyFleet(journal, tree, uid))
      ensures steady && old(Fleet(journal, tree) && RoomyFleet(journal, tree, uid) && Spare(journal, 0)) ==>
                && ok && AllEnded(journal) && EndedTrees(old(journal), tree)
                && (AllRecovered(items) <==> old(Evidenced(journal)))
    {
      hide Valid, JournalOk, Advances, Accounted, Grouping, Fleet, RoomyFleet, Spare, NotesGrow, AllEnded, EndedTrees,
           Set, ProperGroup, Underway, Fates, AllClearable, FleetPlan, RemovalSafe, RootsOnly, ResourcesSafe, Torn,
           AllWhole, AllTidy, AllFit, DoneAll, AllMovable, Orderly, LocalEnd, TouchesGroups, AllUnobstructed, Conserved,
           Evidenced, AllRecovered;
      ghost var first, before := journal, tree;
      NotesSame(journal);
      ValidMeans();
      var found: seq<Group>;
      ghost var safe: seq<Record>;
      ok, items, found, safe := PlanRemoval(delegated);
      groups := [];
      ResourcesUntouched(first, journal, tree);
      SelfConserved(tree, [], uid);
      if !ok {
        NothingEnds(first, journal, tree, uid, steady);
        return;
      }
      groups := found;
      ghost var planned := journal;
      GroupsUntouched(journal, first.Values, safe, groups, items);
      PlanStarts(first, journal, tree, groups, uid);
      ok, items := RemoveGroups(found, items, first.Values, safe);
      AdvancesChain(first, planned, journal);
      RootsYield(first, planned, journal, before, tree, groups);
      ValidMeans();
      PlanEnds(first, planned, journal, before, tree, groups, uid, ok, steady);
      if Fleet(first, before) {
        if !Torn(Moment(first, before), Moment(journal, tree)) {
          FatesFleet(first, before, journal, tree, groups, uid);
        }
        if steady && RoomyFleet(first, before, uid) && Spare(first, 0) {
          ClearableDone(first, before, journal, tree, groups, uid);
          DoneFleet(first, before, journal, tree, groups);
        }
      }
    }

    /** Any number of attempts, each cut off anywhere or not: what recovery records as reclaimed was gone
        from both its places at that moment and never comes back. */
    method Attempts(n: nat)
      requires Valid()
      modifies `journal, `tree, `closures, `steady, `kernel
      ensures Valid() && Advances(old(journal), journal)
      ensures forall id :: id in journal && IsClaim(journal[id]) && journal[id].phase.Reclaimed? && id !in origin ==>
                journal[id].identity.Place? && Gone(journal[id], tree) && GoneWhenRecorded(closures, journal[id])
    {
      hide Valid, Advances, Gone, GoneWhenRecorded;
      AdvancesSelf(journal);
      for i := 0 to n
        invariant Valid() && Advances(old(journal), journal)
      {
        ghost var now := journal;
        var calm: bool := *;
        var delegated: bool := *;
        var sights: map<string, Sight> := *;
        steady, kernel := calm, sights;
        var ok, items, _ := Reclaim(delegated);
        AdvancesChain(old(journal), now, journal);
      }
      NeverBack();
    }

    lemma NeverBack()
      requires Valid()
      ensures forall id :: id in journal && IsClaim(journal[id]) && journal[id].phase.Reclaimed? && id !in origin ==>
                journal[id].identity.Place? && Gone(journal[id], tree) && GoneWhenRecorded(closures, journal[id])
    {
      hide JournalOk, WellFormed, Settled, Gone;
      forall id | id in journal && IsClaim(journal[id]) && journal[id].phase.Reclaimed? && id !in origin
        ensures journal[id].identity.Place? && Gone(journal[id], tree) && GoneWhenRecorded(closures, journal[id])
      {
        var c :| c in closures && c.record.id == id;
        assert Closed(c, journal, tree);
        SettledGone(c.record, journal, tree);
      }
    }

    /** An attempt that ends gives its receipt, unless a name or the number of results is refused. Undisturbed, on
        a fleet within budget, the receipt is confirmed, but for cgroups reclaimed earlier without evidence. */
    method ReclaimWithReceipt(delegated: bool) returns (receipt: Option<RecoveryReceipt.Payload>)
      requires Valid()
      modifies `journal, `tree, `closures
      ensures Valid() && Advances(old(journal), journal)
      ensures receipt.Some? ==> RecoveryReceipt.Coherent(receipt.value)
      ensures receipt.Some? && receipt.value.status.Confirmed? ==> AllEnded(journal)
      ensures steady && old(Fleet(journal, tree) && RoomyFleet(journal, tree, uid) && Spare(journal, 0))
              && old(journal.Values != {} && RecoveryReceipt.Spellable(journal.Values)) ==>
                receipt.Some? && (receipt.value.status.Confirmed? <==> old(Evidenced(journal)))
    {
      hide Valid, Advances, Fleet, RoomyFleet, Spare, Accounted, Evidenced, RecoveryReceipt.Coherent, AllRecovered,
           RecoveryReceipt.Receipt, RecoveryReceipt.Spellable;
      ValidMeans();
      var ok, items, _ := Reclaim(delegated);
      if !ok { return None; }
      var payload := RecoveryReceipt.Receipt(items);
      var good := RecoveryReceipt.CheckRows(payload.rows);
      RecoveryReceipt.ReceiptChecked(journal, old(journal).Values, items);
      if !good { return None; }
      receipt := Some(payload);
      if payload.status.Confirmed? { RecoveryReceipt.ConfirmedReclaims(journal, old(journal).Values, items); }
      if old(journal).Values != {} {
        RecoveryReceipt.SomethingReported(journal, old(journal).Values, items);
        RecoveryReceipt.StatusMeans(items);
      }
      EndedAll(old(journal), journal);
    }

    /** `n` attempts, each cut off anywhere or not, then an undisturbed one. `trace` holds the journal and the
        tree before, between and after them; if none of the first `n` tore a group, everything is finished. */
    method CrashesThenRerun(n: nat) returns (ghost trace: seq<Moment>)
      requires Valid() && Fleet(journal, tree) && RoomyFleet(journal, tree, uid) && Spare(journal, n)
      modifies `journal, `tree, `closures, `steady, `kernel
      ensures Valid() && |trace| == n + 2 && trace[0] == old(Moment(journal, tree))
      ensures trace[n + 1] == Moment(journal, tree)
      ensures AllAttempted(trace, n, uid)
      ensures NoneTorn(trace, n) ==> AllEnded(journal)
      ensures NoneTorn(trace, n) ==>
                forall id :: id in journal && IsClaim(journal[id]) && id !in origin ==>
                               journal[id].identity.Place? && Gone(journal[id], tree)
    {
      hide Valid, Advances, Gone, GoneWhenRecorded, Fleet, RoomyFleet, Spare, Accounted, EndedTrees, NotesGrow,
           Attempted, AllAttempted, NoneTorn, Torn, ResourcesSafe;
      trace := [Moment(journal, tree)];
      TraceStart(trace[0], n, uid);
      for i := 0 to n + 1
        invariant Valid() && |trace| == i + 1 && trace[0] == old(Moment(journal, tree))
        invariant trace[i] == Moment(journal, tree)
        invariant AllAttempted(trace, n, uid)
      {
        ghost var now := Moment(journal, tree);
        var delegated: bool, sights: map<string, Sight> := *, *;
        steady, kernel := i == n, sights;
        var ok, items, _ := Reclaim(delegated);
        AttemptedNow(now, Moment(journal, tree), steady, uid);
        TraceNext(trace, Moment(journal, tree), n, uid);
        trace := trace + [Moment(journal, tree)];
      }
      if NoneTorn(trace, n) { Converges(trace, n, uid); }
      NeverBack();
    }

    lemma ValidMeans()
      requires Valid()
      ensures JournalOk(journal) && WellFormed(tree) && QuarantineOpen(tree) && OneName(tree)
    {}

    lemma StepFits(id: string)
      requires Valid() && id in journal
      ensures var r := journal[id];
              Movable(r) && Known(r) && !Terminal(r.phase) && !r.phase.CleanupIntent? ==>
                CleanupIntent in Next(r.phase) && Publishable(Changed(r, CleanupIntent, None, Silent))
      ensures var r := journal[id];
              Movable(r) && Known(r) && r.phase.CleanupIntent? ==>
                CleanupFailed in Next(r.phase) && Publishable(Changed(r, CleanupFailed, None, Silent))
    {
      if Movable(journal[id]) && !Terminal(journal[id].phase) { MovableFits(journal[id]); }
    }

    lemma CloseFits(id: string, note: Note)
      requires Valid() && id in journal
      ensures var r := journal[id];
              r.phase.CleanupIntent? && r.observations < MAX_OBSERVATIONS ==>
                Reclaimed in Next(r.phase) && Publishable(Changed(r, Reclaimed, None, note))
    {
      var r := journal[id];
      if r.phase.CleanupIntent? && r.observations < MAX_OBSERVATIONS { ReclaimedFits(r, note); }
    }

    lemma EvidenceFits(id: string)
      requires Valid() && id in journal && journal[id].phase.CleanupIntent?
      ensures journal[id].kind.Cgroup? && journal[id].grouped ==> Publishable(journal[id].(evidence := true))
    {}

    lemma PrepareFacts(root: Record, d: Record)
      requires Valid() && d.id in journal && journal[d.id] == d && IsClaim(d) && root.identity.Place?
      requires d.identity.Place?
      requires root.identity.path <= d.identity.path
      ensures InQuarantine(Aim(root, d))
      ensures Ready(d) && !d.phase.CleanupIntent? ==>
                CleanupIntent in Next(d.phase) && Publishable(Changed(d, CleanupIntent, Some(Aim(root, d)), Silent))
    {
      hide WellFormed, AllClosed;
      assert Aim(root, d)[0] == "quarantine" && Aim(root, d)[1] == "reclaim-" + root.id;
    }

    lemma CarryStart(r: Record, located: Path)
      requires Valid() && r.id in journal && journal[r.id] == r && IsClaim(r)
      requires Publishable(r) && Locate(tree, r) == At(located)
      ensures r.identity.Place? && IsDir(tree, located, r.identity.stamp) && OneName(tree) && Advances(journal, journal)
      ensures InResources(r.identity.path) && (located != r.identity.path ==> r.identity.path !in tree)
      ensures Armed(journal, tree, r.id) ==> GroupState(journal, tree, r.id)
      ensures r.identity.Place? && Removable(r, tree, uid) ==> r.observations < MAX_OBSERVATIONS
    {}

    /** From the second validation on: rename, removal and the terminal record. */
    method Carry(r: Record, located: Path) returns (item: Option<Item>)
      requires Valid() && r.id in journal && journal[r.id] == r && IsClaim(r) && r.phase.CleanupIntent?
      requires Publishable(r) && Locate(tree, r) == At(located) && r.target.Some?
      modifies `journal, `tree, `closures
      ensures Valid() && Advances(old(journal), journal) && Touches(old(journal), journal, r.id)
      ensures item.Some? ==> item.value.id == r.id && item.value.session == r.session && item.value.kind == r.kind
      ensures item.Some? && item.value.disposition.Recovered? ==>
                journal[r.id].phase.Reclaimed? && r.identity.path !in tree && Own(r.id) !in tree
      ensures ResourcesKept(old(tree), tree, r.identity.path)
      ensures located == r.identity.path || located == Own(r.id) ==> Elsewhere(old(tree), tree, r)
      ensures journal[r.id].observations <= r.observations + 1
      ensures old(Armed(journal, tree, r.id)) && !Lost(old(tree), tree, r) ==>
                GroupState(journal, tree, r.id) && (old(Roomy(r, tree, uid)) ==> Roomy(r, tree, uid))
      ensures steady && old(Armed(journal, tree, r.id)) && old(Removable(r, tree, uid)) ==>
                item.Some? && item.value.disposition.Recovered?
      ensures steady && Movable(r) ==> item.Some?
      ensures Considerate(old(tree), tree, r, uid)
      ensures journal[r.id].phase.Reclaimed? ==>
                OwnTree(old(tree), r, uid) && ExactLoss(old(tree), tree, r, located, uid)
    {
      hide Valid, Armed, Roomy, Locate, Cleared, Advances, Publishable, GroupState, NoTrace, OneName, Settled,
           Considerate, OwnTree, ExactLoss;
      ghost var before := tree;
      CarryStart(r, located);
      var res, reason := Clear(r, located);
      if res.Done? {
        RootClosed(r, before, located, r.id);
        PathGone(r, before, located);
        NoTraceSettled(r, journal, tree);
      }
      item := Conclude(r, res, reason);
    }

    /** Record how the removal ended. */
    method Conclude(r: Record, res: Removal, reason: Reason) returns (item: Option<Item>)
      requires Valid() && r.id in journal && journal[r.id] == r && IsClaim(r) && r.phase.CleanupIntent?
      requires r.identity.Place?
      requires res.Done? ==> Settled(r, journal, tree)
      modifies `journal, `closures
      ensures Valid() && Advances(old(journal), journal) && Touches(old(journal), journal, r.id)
      ensures item.Some? ==> item.value.id == r.id && item.value.session == r.session && item.value.kind == r.kind
      ensures item.Some? && item.value.disposition.Recovered? ==> res.Done? && journal[r.id].phase.Reclaimed?
      ensures item.Some? ==> item.value.phase == journal[r.id].phase
                             && item.value.reason == if res.Done? then None else Some(reason)
      ensures journal[r.id].observations <= r.observations + 1
      ensures item.None? ==> journal == old(journal)
      ensures old(Armed(journal, tree, r.id) && GroupState(journal, tree, r.id)) && !res.Done? ==>
                GroupState(journal, tree, r.id)
      ensures steady && res.Done? && r.observations < MAX_OBSERVATIONS ==>
                item.Some? && item.value.disposition.Recovered?
      ensures steady && !res.Stopped? && Movable(r) ==> item.Some?
      ensures journal[r.id].phase.Reclaimed? ==> res.Done?
    {
      hide Valid, Armed, Advances, GroupState, Settled;
      AdvancesSelf(journal);
      item := None;
      if res.Errored? {
        item := Fail(r.id, reason);
      } else if res.Done? {
        var ok := Close(r.id);
        if ok { item := Some(ItemOf(journal[r.id], Recovered, None)); }
      }
    }

    /** Rename and removal. */
    method Clear(r: Record, located: Path) returns (res: Removal, reason: Reason)
      requires Valid() && r.id in journal && journal[r.id] == r && IsClaim(r) && r.phase.CleanupIntent?
      requires Publishable(r) && Locate(tree, r) == At(located) && r.target.Some?
      modifies `tree
      ensures Valid() && (res.Done? ==> tree == Cleared(old(tree), located, r.id))
      ensures ResourcesKept(old(tree), tree, r.identity.path)
      ensures old(Armed(journal, tree, r.id)) && res.Done? ==> Lost(old(tree), tree, r)
      ensures located == r.identity.path || located == Own(r.id) ==> Elsewhere(old(tree), tree, r)
      ensures old(Armed(journal, tree, r.id)) && !Lost(old(tree), tree, r) ==>
                Armed(journal, tree, r.id) && GroupState(journal, tree, r.id)
      ensures old(Armed(journal, tree, r.id)) && !Lost(old(tree), tree, r) && old(Roomy(r, tree, uid)) ==>
                Roomy(r, tree, uid)
      ensures steady && old(Armed(journal, tree, r.id)) && old(Roomy(r, tree, uid)) ==> res.Done?
      ensures steady ==> !res.Stopped?
      ensures Considerate(old(tree), tree, r, uid)
      ensures res.Done? ==> OwnTree(old(tree), r, uid) && ExactLoss(old(tree), tree, r, located, uid)
      ensures if tree != old(tree) then reason.RemovalFailed? else reason.RenameFailed? || reason.RemovalFailed?
    {
      hide Valid, Armed, Roomy, Locate, Enough, Move, Publishable, GroupState, Pruned, Elsewhere, Lost, ResourcesKept,
           Considerate, OwnTree, OwnGone, Unobstructed, CanMove, Cut, ExactLoss;
      ghost var before := tree;
      CarryStart(r, located);
      ValidMeans();
      FreeName(tree, r);
      TreeSame(tree, r, uid);
      FetchElsewhere(tree, r, located);
      res := Fetch(r, located);
      reason := RenameFailed;
      if res.Done? {
        ghost var fetched := tree;
        res := Empty(r.id, r.identity.stamp.device);
        EmptyElsewhere(before, fetched, tree, r);
        ClearConsiderate(before, r, located, fetched, tree, uid);
        if res.Done? {
          ClearedOwn(before, r, located, fetched, tree, uid);
          ClearExact(before, r, located, fetched, tree, uid);
        }
        ClearResources(before, r, located, fetched, tree);
        if Armed(journal, before, r.id) && tree != fetched { ClearLoses(journal, before, r, located, fetched, tree); }
        reason := RemovalFailed;
      } else {
        PrunedSelf(tree, Own(r.id));
        ClearResources(before, r, located, before, tree);
      }
    }

    /** Remove the quarantined tree. */
    method Empty(id: string, device: nat) returns (r: Removal)
      requires Valid() && Own(id) in tree && tree[Own(id)].Dir?
      modifies `tree
      ensures Valid() && Pruned(old(tree), Own(id), tree) && OwnGone(old(tree), tree, device, uid)
      ensures r.Done? ==> tree == Cut(old(tree), Own(id)) && tree != old(tree)
      ensures steady && Enough(old(tree), Own(id), device, uid, 0, 0) ==> r.Done?
      ensures steady ==> !r.Stopped?
    {
      hide JournalOk, WellFormed, AllClosed, Enough;
      var remover := new Remover(tree, steady, uid);
      r := remover.RemoveTree(Own(id), device, 0);
      PrunedQuarantine(tree, id, remover.tree);
      ClosedPruned(closures, journal, tree, remover.tree);
      tree := remover.tree;
    }
  }
}
