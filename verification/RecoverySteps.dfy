/** What the steps of one group's recovery keep: fixing targets, the rename, the removal and the
    terminal records. */
module RecoverySteps {
  import opened Options
  import opened RecoveryTree
  import opened RecoveryRecords
  import opened RecoveryPlan
  import opened RecoveryRemoval
  import opened RecoverySafety
  import opened RecoveryGroup
  import opened RecoveryFleet
  import opened RecoveryResults

  /** The observation a transition adds to a record, if any. */
  datatype Note = Silent | Noted | SeenEmpty

  function Changed(r: Record, phase: Phase, target: Option<Path>, note: Note): Record {
    r.(phase := phase, target := if target.Some? then target else r.target,
       observations := if note.Silent? then r.observations else r.observations + 1,
       emptied := r.emptied || note.SeenEmpty?)
  }

  /** Nothing in the record itself keeps the journal from taking its next phase. */
  predicate Movable(r: Record) {
    r.observations < MAX_OBSERVATIONS && !r.evidence && (r.kind.RetainedSource? ==> r.recoverable)
  }

  /** What was claimed is on record. */
  predicate Known(r: Record) {
    !r.identity.Unknown? && (r.identity.Covered? ==> r.identity.started)
  }

  /** No open record is stuck. */
  ghost predicate AllMovable(journal: Journal) {
    forall id :: id in journal && !Terminal(journal[id].phase) ==> Movable(journal[id])
  }

  /** The moves a movable record can make. */
  lemma MovableFits(r: Record)
    requires Publishable(r) && Movable(r) && !Terminal(r.phase)
    ensures Ambiguous in Next(r.phase) && Publishable(Changed(r, Ambiguous, None, Noted))
    ensures Known(r) && !r.phase.CleanupIntent? ==>
              CleanupIntent in Next(r.phase) && Publishable(Changed(r, CleanupIntent, None, Silent))
    ensures Known(r) && r.phase.CleanupIntent? ==>
              CleanupFailed in Next(r.phase) && Publishable(Changed(r, CleanupFailed, None, Silent))
              && Publishable(Changed(r, CleanupFailed, None, Noted))
  {}

  /** An open record can be marked ambiguous exactly while it has room for an observation and keeps no evidence of
      emptiness; and a claim's cleanup can be intended exactly when policy lets a retained source go. */
  lemma StuckExactly(r: Record)
    requires Publishable(r) && !Terminal(r.phase)
    ensures Publishable(Changed(r, Ambiguous, None, Noted)) <==> r.observations < MAX_OBSERVATIONS && !r.evidence
    ensures IsClaim(r) && r.identity.Place? ==>
              (Publishable(Changed(r, CleanupIntent, Some(Own(r.id)), Silent)) <==>
               (r.kind.RetainedSource? ==> r.recoverable))
  {
    assert Own(r.id)[1] == "reclaim-" + r.id;
  }

  lemma ReclaimedFits(r: Record, note: Note)
    requires Publishable(r) && r.phase.CleanupIntent? && r.observations < MAX_OBSERVATIONS
    ensures Reclaimed in Next(r.phase) && Publishable(Changed(r, Reclaimed, None, note))
  {}

  lemma StepAdvances(journal: Journal, id: string, r: Record)
    requires JournalOk(journal) && id in journal && !Terminal(journal[id].phase)
    requires SameClaim(journal[id], r) && Publishable(r)
    ensures JournalOk(journal[id := r]) && Advances(journal, journal[id := r]) && Touches(journal, journal[id := r], id)
  {}

  /** The group as the root's rename finds it: every member aimed. */
  ghost predicate Armed(journal: Journal, tree: Tree, rootId: string) {
    GroupState(journal, tree, rootId) && AllAimed(journal, journal[rootId])
  }

  ghost predicate OthersAimed(journal: Journal, rootId: string)
    requires rootId in journal && Ready(journal[rootId])
  {
    forall id :: id in journal && id != rootId && IsMember(journal[id], journal[rootId]) ==>
      journal[id].target == Some(Aim(journal[rootId], journal[id]))
  }

  /** The group as the root's own removal finds it: every other member already aimed. */
  ghost predicate Poised(journal: Journal, tree: Tree, rootId: string) {
    GroupState(journal, tree, rootId) && OthersAimed(journal, rootId)
  }

  /** The tree to remove, wherever it is, fits the removal budget. */
  ghost predicate Roomy(root: Record, tree: Tree, uid: nat)
    requires root.identity.Place?
  {
    Enough(tree, if Own(root.id) in tree then Own(root.id) else root.identity.path, root.identity.stamp.device, uid, 0,
           0)
  }

  ghost predicate Removable(root: Record, tree: Tree, uid: nat)
    requires root.identity.Place?
  {
    Roomy(root, tree, uid) && root.observations < MAX_OBSERVATIONS
  }

  /** No record gained or lost an observation. */
  ghost predicate SameNotes(journal: Journal, next: Journal) {
    journal.Keys == next.Keys && forall id :: id in journal ==> next[id].observations == journal[id].observations
  }

  lemma ArmedLocated(journal: Journal, tree: Tree, rootId: string, located: Path, uid: nat)
    requires Armed(journal, tree, rootId) && Locate(tree, journal[rootId]) == At(located)
    ensures located == Own(rootId) || located == journal[rootId].identity.path
    ensures located != Own(rootId) ==> CanMove(tree, located, Own(rootId))
                                       && Armed(journal, Move(tree, located, Own(rootId)), rootId)
    ensures Roomy(journal[rootId], tree, uid) ==>
              Enough(if located == Own(rootId) then tree else Move(tree, located, Own(rootId)), Own(rootId),
                     journal[rootId].identity.stamp.device, uid, 0, 0)
  {
    var root := journal[rootId];
    assert IsMember(root, root);
    assert Aim(root, root) == Own(rootId);
    ResourcesApart(root.identity.path, rootId);
    MemberLocated(journal, tree, rootId, rootId);
    hide Locate, Enough, Move, CanMove, Moved, Unmoved, AimsRight, JournalOk, WellFormed;
    if Unmoved(journal, tree, root) {
      RenameKeeps(journal, tree, rootId);
      if Roomy(root, tree, uid) {
        MoveEnough(tree, located, Own(rootId), root.identity.stamp.device, uid);
      }
    }
  }

  /** The claim is not where only some other claim's removal could have put it. */
  predicate Tidy(tree: Tree, r: Record) {
    r.identity.Place? && (r.target.Some? && r.target.value != Own(r.id) ==> r.identity.path in tree)
  }

  /** So it is found at its own path or its own quarantine name, also once its cleanup is intended. */
  lemma TidyLocated(tree: Tree, r: Record, current: Record)
    requires IsClaim(r) && IsClaim(current) && Publishable(r) && Publishable(current) && current.identity == r.identity
    requires current.id == r.id && (current.target == r.target || current.target == Some(Own(r.id)))
    ensures Tidy(tree, r) && Locate(tree, current).At? ==>
              Locate(tree, current).path == r.identity.path || Locate(tree, current).path == Own(r.id)
  {}

  lemma FetchElsewhere(tree: Tree, r: Record, located: Path)
    requires r.identity.Place?
    ensures Elsewhere(tree, tree, r)
    ensures located == r.identity.path ==> Elsewhere(tree, Move(tree, located, Own(r.id)), r)
  {
    MoveElsewhere(tree, r);
  }

  /** Once fetched, an aimed group whose tree has lost nothing is exactly as it was fetched. */
  lemma ClearLoses(journal: Journal, before: Tree, r: Record, located: Path, fetched: Tree, tree: Tree)
    requires r.id in journal && journal[r.id] == r && IsClaim(r) && Publishable(r) && Locate(before, r) == At(located)
    requires Armed(journal, before, r.id) && Pruned(fetched, Own(r.id), tree) && tree != fetched
    requires fetched == if located == Own(r.id) then before else Move(before, located, Own(r.id))
    ensures Lost(before, tree, r)
  {
    assert IsMember(r, r) && Aim(r, r) == Own(r.id);
    ResourcesApart(r.identity.path, r.id);
    MemberLocated(journal, before, r.id, r.id);
    hide Move, Locate, Publishable, WellFormed;
    ArmedLocated(journal, before, r.id, located, 0);
    FetchedLoses(before, fetched, tree, r);
  }

  /** Under `resources` nothing goes but below the claim's own path, and nothing comes. */
  ghost predicate ResourcesKept(before: Tree, tree: Tree, path: Path) {
    && (forall p :: p in before && InResources(p) && !(path <= p) ==> p in tree && tree[p] == before[p])
    && (forall p :: p in tree && InResources(p) ==> p in before && tree[p] == before[p])
  }

  lemma ClearResources(before: Tree, r: Record, located: Path, fetched: Tree, tree: Tree)
    requires IsClaim(r) && Publishable(r) && Locate(before, r) == At(located) && Pruned(fetched, Own(r.id), tree)
    requires fetched == before || fetched == Move(before, located, Own(r.id))
    ensures ResourcesKept(before, tree, r.identity.path)
  {
    assert located == r.identity.path || InQuarantine(located);
    hide Locate, Publishable;
    forall p | p in before && InResources(p) && !(r.identity.path <= p) ensures p in fetched && fetched[p] == before[p]
    && !(Own(r.id) <= p) {}
    forall p | p in fetched && InResources(p) ensures p in before && fetched[p] == before[p] {}
  }

  lemma TreeSame(tree: Tree, r: Record, uid: nat)
    requires r.identity.Place?
    ensures Elsewhere(tree, tree, r) && !Lost(tree, tree, r) && ResourcesKept(tree, tree, r.identity.path)
    ensures Considerate(tree, tree, r, uid)
  {}

  // ---- entries that are not ours ----

  /** Whatever the claim's directory holds, itself included, is on its device and of the owner. */
  ghost predicate OwnTree(tree: Tree, r: Record, uid: nat)
    requires r.identity.Place?
  {
    forall p, q :: IsDir(tree, p, r.identity.stamp) && q in tree && p <= q ==>
                     tree[q].Device() == r.identity.stamp.device && tree[q].uid == uid
  }

  /** Of every node of another device or owner there are as many entries as before. */
  ghost predicate OutsidersKept(before: Tree, tree: Tree, device: nat, uid: nat) {
    forall n: Node :: n.Device() != device || n.uid != uid ==> Copies(tree, n) == Copies(before, n)
  }

  /** No directory is in the way of a rename that no validation of the claim's own target would find. */
  predicate Unobstructed(tree: Tree, r: Record) {
    r.target.Some? && r.target.value != Own(r.id) ==> Own(r.id) !in tree
  }

  /** Nothing comes but below the claim's quarantine name, and nothing goes that is not ours. */
  ghost predicate Considerate(before: Tree, tree: Tree, r: Record, uid: nat)
    requires r.identity.Place?
  {
    && (forall q :: q in tree && !(Own(r.id) <= q) ==> q in before && tree[q] == before[q])
    && (Unobstructed(before, r) ==> OutsidersKept(before, tree, r.identity.stamp.device, uid))
  }

  /** What rename and removal do to entries that are not ours. */
  lemma ClearConsiderate(before: Tree, r: Record, located: Path, fetched: Tree, tree: Tree, uid: nat)
    requires r.identity.Place? && WellFormed(before) && located in before
    requires fetched == before
             || (fetched == Move(before, located, Own(r.id)) && CanMove(before, located, Own(r.id))
                 && Apart(located, Own(r.id)))
    requires Pruned(fetched, Own(r.id), tree) && OwnGone(fetched, tree, r.identity.stamp.device, uid)
    requires fetched == before || Own(r.id) !in before || !Unobstructed(before, r)
    ensures Considerate(before, tree, r, uid)
  {
    hide Move, CanMove, Copies;
    if Unobstructed(before, r) {
      forall n: Node | n.Device() != r.identity.stamp.device || n.uid != uid
        ensures Copies(tree, n) == Copies(before, n)
      {
        CopiesKept(fetched, tree, r.identity.stamp.device, uid, n);
        if fetched != before { CopiesMoved(before, located, Own(r.id), n); }
      }
    }
  }

  /** A finished removal took only entries that are ours. */
  lemma ClearedOwn(before: Tree, r: Record, located: Path, fetched: Tree, tree: Tree, uid: nat)
    requires r.identity.Place? && OneName(before) && IsDir(before, located, r.identity.stamp)
    requires fetched == if located == Own(r.id) then before else Move(before, located, Own(r.id))
    requires tree == Cut(fetched, Own(r.id)) && OwnGone(fetched, tree, r.identity.stamp.device, uid)
    ensures OwnTree(before, r, uid)
  {
    forall p, q | IsDir(before, p, r.identity.stamp) && q in before && p <= q
      ensures before[q].Device() == r.identity.stamp.device && before[q].uid == uid
    {
      assert p == located;
      var there := Own(r.id) + q[|located|..];
      PrefixSplit(located, q);
      assert there[|Own(r.id)|..] == q[|located|..];
      assert there in fetched && fetched[there] == before[q];
    }
  }

  /** A finished removal loses, of what is not ours, exactly the directory its rename replaced. */
  ghost predicate ExactLoss(before: Tree, tree: Tree, r: Record, located: Path, uid: nat)
    requires r.identity.Place?
  {
    forall n: Node :: n.Device() != r.identity.stamp.device || n.uid != uid ==>
      Copies(tree, n)
      == Copies(before, n) - (if located != Own(r.id) && Own(r.id) in before && before[Own(r.id)] == n then 1 else 0)
  }

  lemma ClearExact(before: Tree, r: Record, located: Path, fetched: Tree, tree: Tree, uid: nat)
    requires r.identity.Place? && WellFormed(before)
    requires located == Own(r.id) ==> fetched == before
    requires located != Own(r.id) ==> fetched == Move(before, located, Own(r.id))
                                      && CanMove(before, located, Own(r.id)) && Apart(located, Own(r.id))
    requires Pruned(fetched, Own(r.id), tree) && OwnGone(fetched, tree, r.identity.stamp.device, uid)
    ensures ExactLoss(before, tree, r, located, uid)
  {
    hide Move, CanMove, Copies;
    forall n: Node | n.Device() != r.identity.stamp.device || n.uid != uid
      ensures Copies(tree, n)
        == Copies(before, n) - (if located != Own(r.id) && Own(r.id) in before && before[Own(r.id)] == n then 1 else 0)
    {
      CopiesKept(fetched, tree, r.identity.stamp.device, uid, n);
      if located != Own(r.id) { CopiesMoved(before, located, Own(r.id), n); }
    }
  }

  /** The claim aimed elsewhere, with another owner's empty directory at its own quarantine name. */
  function BlockedTree(): Tree {
    AimedTree()[Own("b") := Dir(Stamp(1, 9, ""), 5)]
  }

  lemma BlockedTreeHangs()
    ensures WellFormed(BlockedTree())
  {
    AimedTreeHangs();
    var tree := BlockedTree();
    forall p, k | p in tree && 0 < k < |p| ensures p[..k] in tree && tree[p[..k]].Dir? {
      if p == Own("b") { assert p[..k] == ["quarantine"]; }
    }
  }

  lemma BlockedFound()
    ensures Locate(BlockedTree(), AimedMember()) == At(["resources", "b"])
  {
    var aim, tree := Own("a") + ["b"], BlockedTree();
    assert aim[0] == "quarantine" && aim[1] == "reclaim-" + "a";
    assert Own("b")[1] == "reclaim-" + "b";
    assert Find(tree, aim).Absent? by {
      forall k | 0 < k < |aim| ensures !(aim[..k] in tree && tree[aim[..k]].Leaf?) {}
    }
  }

  /** Its rename is allowed, and the other owner's directory is gone after it. */
  lemma ReplacedLost()
    ensures WellFormed(BlockedTree()) && IsClaim(AimedMember()) && Publishable(AimedMember())
    ensures Locate(BlockedTree(), AimedMember()) == At(AimedMember().identity.path)
    ensures CanMove(BlockedTree(), AimedMember().identity.path, Own("b"))
    ensures !OutsidersKept(BlockedTree(), Move(BlockedTree(), AimedMember().identity.path, Own("b")), 1, 0)
  {
    BlockedTreeHangs();
    AimedMemberFound();
    BlockedFound();
    hide WellFormed, Locate, Publishable, Move, Copies, AimedTree;
    var path, n := AimedMember().identity.path, BlockedTree()[Own("b")];
    assert Own("b")[..|Own("b")| - 1] == ["quarantine"];
    BlockedRename();
    CopiesMoved(BlockedTree(), path, Own("b"), n);
  }

  lemma BlockedRename()
    ensures CanMove(BlockedTree(), ["resources", "b"], Own("b")) && Apart(["resources", "b"], Own("b"))
  {
    assert Own("b")[..|Own("b")| - 1] == ["quarantine"];
    assert ["resources", "b"][0] != Own("b")[0];
  }

  /** Where a claim with its own target is found, its quarantine name is free or its own. */
  lemma FreeName(tree: Tree, r: Record)
    requires IsClaim(r) && Publishable(r) && Locate(tree, r).At? && r.target.Some?
    ensures Locate(tree, r).path == Own(r.id) || Own(r.id) !in tree || !Unobstructed(tree, r)
  {}

  /** What is said of a claim's tree depends on its name and place alone. */
  lemma SameClaimTree(a: Record, b: Record, before: Tree, tree: Tree, uid: nat)
    requires a.identity.Place? && a.identity == b.identity && a.id == b.id
    ensures Lost(before, tree, a) == Lost(before, tree, b) && Elsewhere(before, tree, a) == Elsewhere(before, tree, b)
    ensures Roomy(a, tree, uid) == Roomy(b, tree, uid) && OwnTree(before, a, uid) == OwnTree(before, b, uid)
    ensures (b.target == a.target || b.target == Some(Own(b.id))) && Considerate(before, tree, b, uid) ==>
              Considerate(before, tree, a, uid)
  {
    assert forall t: Tree, s: Path :: HasEntry(t, a, s) == HasEntry(t, b, s);
  }

  lemma EmptyElsewhere(before: Tree, fetched: Tree, tree: Tree, r: Record)
    requires r.identity.Place? && Pruned(fetched, Own(r.id), tree)
    ensures Elsewhere(before, fetched, r) ==> Elsewhere(before, tree, r)
  {
    hide Elsewhere;
    PrunedElsewhere(fetched, r, tree);
    if Elsewhere(before, fetched, r) { ElsewhereChain(before, fetched, tree, r); }
  }

  lemma FailKeeps(journal: Journal, tree: Tree, rootId: string, next: Journal)
    requires Armed(journal, tree, rootId) && JournalOk(next) && Touches(journal, next, rootId)
    requires next[rootId] == journal[rootId] || next[rootId] == Changed(journal[rootId], CleanupFailed, None, Noted)
    ensures GroupState(next, tree, rootId)
  {
    hide Unmoved, Moved, AimsRight, WellFormed, Publishable;
    var root := journal[rootId];
    assert IsMember(root, root) && Ready(next[rootId]);
    assert next == journal[rootId := next[rootId]];
    if next[rootId] == root {
      assert next == journal;
    } else {
      AimKeeps(journal, tree, rootId, rootId, next[rootId]);
    }
  }

  lemma PoisedFacts(journal: Journal, tree: Tree, rootId: string)
    ensures Poised(journal, tree, rootId) ==> GroupState(journal, tree, rootId) && Ready(journal[rootId])
    ensures Poised(journal, tree, rootId) ==> Publishable(journal[rootId]) && Locate(tree, journal[rootId]).At?
  {
    if Poised(journal, tree, rootId) {
      assert IsMember(journal[rootId], journal[rootId]);
      MemberLocated(journal, tree, rootId, rootId);
    }
  }

  lemma IntendFacts(journal: Journal, next: Journal, tree: Tree, rootId: string, uid: nat)
    requires JournalOk(next) && Touches(journal, next, rootId) && rootId in journal
    requires SameClaim(journal[rootId], next[rootId])
    requires next[rootId].phase.CleanupIntent? && next[rootId].target.Some?
    requires next[rootId].observations == journal[rootId].observations
    requires next[rootId].recoverable == journal[rootId].recoverable
    requires var r := journal[rootId];
             next[rootId].target.value == if r.phase.CleanupIntent? && r.target.Some? then r.target.value
             else Own(rootId)
    ensures Publishable(next[rootId]) && IsClaim(journal[rootId]) == IsClaim(next[rootId])
    ensures Poised(journal, tree, rootId) ==>
              Armed(next, tree, rootId) && GroupState(next, tree, rootId) && Locate(tree, next[rootId]).At?
    ensures journal[rootId].identity.Place? && Roomy(journal[rootId], tree, uid) ==> Roomy(next[rootId], tree, uid)
  {
    if Poised(journal, tree, rootId) {
      var root, root' := journal[rootId], next[rootId];
      assert IsMember(root, root) && Aim(root, root) == Own(rootId);
      assert Ready(root') && next == journal[rootId := root'];
      hide Unmoved, Moved, Enough, WellFormed, Publishable, Locate;
      AimKeeps(journal, tree, rootId, rootId, root');
      RewriteMembers(journal, rootId, rootId, root');
      assert IsMember(root', root');
      MemberLocated(next, tree, rootId, rootId);
    }
  }

  lemma PrepareKeeps(journal: Journal, tree: Tree, root: Record, d: Record, next: Journal)
    requires InGroup(journal, tree, root, d) && root.identity.Place? && d.identity.Place?
    requires root.identity.path <= d.identity.path
    requires JournalOk(next) && Touches(journal, next, d.id) && (next == journal || Aimed(root, d, next[d.id]))
    ensures GroupState(next, tree, root.id)
  {
    hide Unmoved, Moved, AimsRight, WellFormed;
    if next != journal {
      assert next == journal[d.id := next[d.id]];
      assert Ready(next[d.id]) && journal[root.id].id == root.id;
      AimKeeps(journal, tree, root.id, d.id, next[d.id]);
    }
  }

  /** The records of the group are still as planned. */
  ghost predicate Untouched(journal: Journal, g: Group) {
    forall r :: Holds(g, r) ==> r.id in journal && journal[r.id] == r && !Terminal(r.phase)
  }

  ghost predicate TouchesGroup(journal: Journal, next: Journal, g: Group) {
    && journal.Keys == next.Keys
    && forall x :: x in journal && (forall r :: Holds(g, r) ==> r.id != x) ==> next[x] == journal[x]
  }

  ghost predicate AllPrepared(journal: Journal, g: Group, n: nat)
    requires ProperGroup(g) && n <= |g.members|
  {
    forall i :: 0 <= i < n ==> g.members[i].id in journal && Aimed(g.root, g.members[i], journal[g.members[i].id])
  }

  ghost predicate Pending(journal: Journal, g: Group, n: nat)
    requires n <= |g.members|
  {
    && g.root.id in journal && journal[g.root.id] == g.root
    && forall i :: n <= i < |g.members| ==>
                     g.members[i].id in journal && journal[g.members[i].id] == g.members[i]
                     && !Terminal(g.members[i].phase)
  }

  /** The group's records are the whole nested group, and it is in order. */
  ghost predicate WholeGroup(journal: Journal, tree: Tree, g: Group)
    requires ProperGroup(g)
  {
    && GroupState(journal, tree, g.root.id)
    && (forall r :: Holds(g, r) ==> r.id in journal && IsMember(journal[r.id], journal[g.root.id]) && Ready(r))
    && (forall id :: id in journal && IsMember(journal[id], journal[g.root.id]) ==>
                       exists r :: Holds(g, r) && r.id == id)
  }

  ghost predicate ClosedAs(d: Record, item: Item, journal: Journal) {
    && item.id == d.id && item.session == d.session && item.kind == d.kind && item.disposition.Recovered?
    && d.id in journal && journal[d.id].phase.Reclaimed? && item.phase.Reclaimed? && item.reason.None?
  }

  ghost predicate DistinctIds(g: Group) {
    && (forall i, j :: 0 <= i < j < |g.members| ==> g.members[i].id != g.members[j].id)
    && (forall i :: 0 <= i < |g.members| ==> g.members[i].id != g.root.id)
  }

  /** The members before `n` are prepared, the others and the root still as planned. */
  ghost predicate Preparing(first: Journal, journal: Journal, tree: Tree, g: Group, n: nat)
    requires ProperGroup(g) && n <= |g.members|
  {
    && DistinctIds(g) && Advances(first, journal) && TouchesGroup(first, journal, g)
    && AllPrepared(journal, g, n) && Pending(journal, g, n) && SameNotes(first, journal)
    && (WholeGroup(first, tree, g) ==> WholeGroup(journal, tree, g))
  }

  lemma PreparingMeans(first: Journal, journal: Journal, tree: Tree, g: Group, n: nat)
    requires ProperGroup(g) && n <= |g.members| && Preparing(first, journal, tree, g, n)
    ensures DistinctIds(g) && Advances(first, journal) && TouchesGroup(first, journal, g) && AllPrepared(journal, g, n)
    ensures SameNotes(first, journal)
    ensures g.root.id in journal && journal[g.root.id] == g.root
    ensures WholeGroup(first, tree, g) ==> WholeGroup(journal, tree, g)
  {}

  lemma PrepareStart(journal: Journal, tree: Tree, g: Group)
    requires ProperGroup(g) && Untouched(journal, g)
    ensures Preparing(journal, journal, tree, g, 0)
  {
    hide WholeGroup;
    AdvancesSelf(journal);
    forall i | 0 <= i < |g.members| ensures Holds(g, g.members[i]) {}
    assert Holds(g, g.root);
  }

  lemma PrepareNext(first: Journal, journal: Journal, tree: Tree, g: Group, i: nat)
    requires ProperGroup(g) && i < |g.members| && Preparing(first, journal, tree, g, i)
    ensures var d := g.members[i];
            && d.id in journal && journal[d.id] == d && IsClaim(d) && !Terminal(d.phase) && d in g.members
            && g.root.identity.Place? && d.identity.Place? && g.root.identity.path <= d.identity.path
    ensures WholeGroup(first, tree, g) ==> InGroup(journal, tree, g.root, g.members[i]) && Ready(g.members[i])
  {
    hide GroupState;
    var d := g.members[i];
    assert d in g.members && Holds(g, d);
  }

  lemma WholeKeeps(journal: Journal, tree: Tree, g: Group, id: string, next: Journal)
    requires ProperGroup(g) && WholeGroup(journal, tree, g) && GroupState(next, tree, g.root.id)
    requires id in journal && IsMember(journal[id], journal[g.root.id]) && Touches(journal, next, id)
    requires SameClaim(journal[id], next[id]) && Ready(next[id])
    ensures WholeGroup(next, tree, g)
  {
    hide Unmoved, Moved, AimsRight, WellFormed, Publishable;
    assert next == journal[id := next[id]];
    RewriteMembers(journal, g.root.id, id, next[id]);
  }

  lemma PreparedFrame(first: Journal, journal: Journal, g: Group, i: nat, next: Journal)
    requires ProperGroup(g) && DistinctIds(g) && i < |g.members| && TouchesGroup(first, journal, g)
    requires AllPrepared(journal, g, i) && Pending(journal, g, i)
    requires g.members[i].id in journal && Touches(journal, next, g.members[i].id)
    requires g.root.identity.Place? && g.members[i].identity.Place?
    requires g.root.identity.path <= g.members[i].identity.path
    requires Aimed(g.root, g.members[i], next[g.members[i].id]) && SameNotes(first, journal)
    ensures TouchesGroup(first, next, g) && AllPrepared(next, g, i + 1) && Pending(next, g, i + 1)
    ensures SameNotes(first, next)
  {
    hide Aim;
    assert Holds(g, g.members[i]);
  }

  lemma PreparedWhole(journal: Journal, tree: Tree, g: Group, i: nat, next: Journal)
    requires ProperGroup(g) && i < |g.members| && Pending(journal, g, i) && WholeGroup(journal, tree, g)
    requires Advances(journal, next) && Touches(journal, next, g.members[i].id)
    requires g.root.identity.Place? && g.members[i].identity.Place?
    requires g.root.identity.path <= g.members[i].identity.path
    requires Aimed(g.root, g.members[i], next[g.members[i].id])
    requires InGroup(journal, tree, g.root, g.members[i]) ==> GroupState(next, tree, g.root.id)
    ensures WholeGroup(next, tree, g)
  {
    hide GroupState, Aim;
    assert Holds(g, g.members[i]);
    WholeKeeps(journal, tree, g, g.members[i].id, next);
  }

  lemma PreparedNext(first: Journal, journal: Journal, tree: Tree, g: Group, i: nat, next: Journal)
    requires ProperGroup(g) && i < |g.members| && Preparing(first, journal, tree, g, i)
    requires Advances(journal, next) && g.members[i].id in journal && Touches(journal, next, g.members[i].id)
    requires g.root.identity.Place? && g.members[i].identity.Place?
    requires g.root.identity.path <= g.members[i].identity.path
    requires next == journal || Aimed(g.root, g.members[i], next[g.members[i].id])
    requires InGroup(journal, tree, g.root, g.members[i]) ==> GroupState(next, tree, g.root.id)
    ensures next == journal ==> Preparing(first, next, tree, g, i)
    ensures Aimed(g.root, g.members[i], next[g.members[i].id]) ==> Preparing(first, next, tree, g, i + 1)
  {
    hide GroupState, WholeGroup, InGroup, TouchesGroup, Aimed, AllPrepared, Pending, Advances, ProperGroup, DistinctIds;
    AdvancesChain(first, journal, next);
    if Aimed(g.root, g.members[i], next[g.members[i].id]) {
      PreparedFrame(first, journal, g, i, next);
      if WholeGroup(journal, tree, g) { PreparedWhole(journal, tree, g, i, next); }
    }
  }

  lemma GroupStart(journal: Journal, tree: Tree, g: Group, uid: nat)
    requires ProperGroup(g) && JournalOk(journal) && Untouched(journal, g)
    requires forall r :: Holds(g, r) ==> InResources(r.identity.path)
    ensures g.root.id in journal && journal[g.root.id] == g.root && IsClaim(g.root) && !Terminal(g.root.phase)
    ensures Publishable(g.root)
    ensures g.root.identity.Place? && g.root.identity.path != [] && Advances(journal, journal)
    ensures TouchesGroup(journal, journal, g)
    ensures DistinctIds(g) && forall d :: d in g.members ==> InResources(d.identity.path)
    ensures Fit(g) ==> Movable(g.root) && forall d :: d in g.members ==> Ready(d) && d.observations < MAX_OBSERVATIONS
    ensures WholeGroup(journal, tree, g) ==>
              GroupState(journal, tree, g.root.id) && forall d :: d in g.members ==> Ready(d)
    ensures WholeGroup(journal, tree, g) ==>
              forall d :: d in g.members && d.target.Some? ==> d.target.value == Aim(g.root, d)
    ensures WholeGroup(journal, tree, g) && Clearable(journal, tree, g, uid) ==>
              Removable(g.root, tree, uid) && forall d :: d in g.members ==> d.observations < MAX_OBSERVATIONS
  {
    hide Unmoved, Moved, WellFormed, Roomy;
    assert Holds(g, g.root);
    forall i | 0 <= i < |g.members| ensures Holds(g, g.members[i]) {}
  }

  lemma WholeMeans(journal: Journal, tree: Tree, g: Group)
    requires ProperGroup(g)
    ensures WholeGroup(journal, tree, g) ==> GroupState(journal, tree, g.root.id)
  {}

  lemma TouchRoot(first: Journal, journal: Journal, next: Journal, g: Group)
    requires TouchesGroup(first, journal, g) && Touches(journal, next, g.root.id)
    ensures TouchesGroup(first, next, g)
  {
    assert Holds(g, g.root);
  }

  lemma TouchesChain(first: Journal, journal: Journal, next: Journal, g: Group)
    requires TouchesGroup(first, journal, g) && TouchesGroup(journal, next, g)
    ensures TouchesGroup(first, next, g)
  {}

  lemma MemberAimed(journal: Journal, g: Group, r: Record)
    requires ProperGroup(g) && AllPrepared(journal, g, |g.members|) && r in g.members
    ensures r.id in journal && Aimed(g.root, r, journal[r.id])
  {
    var i :| 0 <= i < |g.members| && g.members[i] == r;
  }

  lemma GroupPrepared(first: Journal, journal: Journal, tree: Tree, g: Group, uid: nat)
    requires ProperGroup(g) && AllPrepared(journal, g, |g.members|) && g.root.id in journal
    requires journal[g.root.id] == g.root
    requires WholeGroup(first, tree, g) ==> WholeGroup(journal, tree, g)
    ensures WholeGroup(first, tree, g) ==> Poised(journal, tree, g.root.id)
  {
    hide AllPrepared, Unmoved, Moved, AimsRight, WellFormed, JournalOk;
    if WholeGroup(first, tree, g) {
      forall id | id in journal && id != g.root.id && IsMember(journal[id], journal[g.root.id])
        ensures journal[id].target == Some(Aim(g.root, journal[id]))
      {
        var r :| Holds(g, r) && r.id == id;
        MemberAimed(journal, g, r);
      }
    }
  }

  lemma StillPrepared(journal: Journal, next: Journal, g: Group)
    requires ProperGroup(g) && DistinctIds(g) && AllPrepared(journal, g, |g.members|)
    requires Touches(journal, next, g.root.id)
    ensures AllPrepared(next, g, |g.members|)
  {}

  lemma ReportRoot(g: Group, item: Item, journal: Journal)
    requires ProperGroup(g) && !item.disposition.Recovered?
    requires item.id == g.root.id && item.session == g.root.session && item.kind == g.root.kind
    ensures Reported(g, [item], journal)
  {}

  lemma ReportAll(g: Group, item: Item, more: seq<Item>, journal: Journal, next: Journal)
    requires ProperGroup(g) && item.disposition.Recovered? && Advances(journal, next)
    requires item.id == g.root.id && item.session == g.root.session && item.kind == g.root.kind
    requires g.root.id in journal && journal[g.root.id].phase.Reclaimed? && |more| == |g.members|
    requires forall i :: 0 <= i < |more| ==> ClosedAs(g.members[i], more[i], next)
    ensures Reported(g, [item] + more, next) && GroupRecovered(g, next)
  {
    forall r | Holds(g, r) ensures r.id in next && next[r.id].phase.Reclaimed? {
      if r != g.root {
        var i :| 0 <= i < |g.members| && g.members[i] == r;
        assert ClosedAs(g.members[i], more[i], next);
      }
    }
  }

  /** A recovered root reports every member as recovered; any other outcome reports the root alone. */
  ghost predicate Reported(g: Group, added: seq<Item>, journal: Journal)
    requires ProperGroup(g)
  {
    && added != [] && added[0].id == g.root.id && added[0].session == g.root.session && added[0].kind == g.root.kind
    && (added[0].disposition.Recovered? ==>
          && g.root.id in journal && journal[g.root.id].phase.Reclaimed? && |added| == |g.members| + 1
          && forall i :: 0 <= i < |g.members| ==> ClosedAs(g.members[i], added[i + 1], journal))
    && (!added[0].disposition.Recovered? ==> |added| == 1)
  }

  /** Every claim of the group can be closed. */
  ghost predicate Fit(g: Group) {
    forall r :: Holds(g, r) ==> Ready(r) && r.observations < MAX_OBSERVATIONS
  }

  ghost predicate GroupRecovered(g: Group, journal: Journal) {
    forall r :: Holds(g, r) ==> r.id in journal && journal[r.id].phase.Reclaimed?
  }

  /** Nothing but a crash or the clock stands in the way of removing the group. */
  ghost predicate Clearable(journal: Journal, tree: Tree, g: Group, uid: nat)
    requires ProperGroup(g) && WholeGroup(journal, tree, g)
  {
    && g.root.identity.Place? && Removable(g.root, tree, uid)
    && forall r :: Holds(g, r) ==> r.observations < MAX_OBSERVATIONS
  }

  /** The group is together, fits its budget if it did, and took at most one observation per claim. */
  ghost predicate Kept(start: Tree, journal: Journal, tree: Tree, g: Group, uid: nat)
    requires ProperGroup(g)
  {
    && WholeGroup(journal, tree, g) && (Roomy(g.root, start, uid) ==> Roomy(g.root, tree, uid))
    && forall r :: Holds(g, r) ==>
                     r.id in journal && SameClaim(r, journal[r.id]) && journal[r.id].observations <= r.observations + 1
  }

  ghost predicate Ended(journal: Journal, tree: Tree, g: Group)
    requires ProperGroup(g)
  {
    GroupRecovered(g, journal) && g.root.identity.path !in tree && Own(g.root.id) !in tree
  }

  predicate RootRecovered(ok: bool, added: seq<Item>) {
    ok && added != [] && added[0].disposition.Recovered?
  }

  /** How one group ends: without any effect on the rest of the tree, kept together while nothing is unlinked,
      recovered when nothing interferes; and what it cannot do stops nothing else. */
  ghost predicate GroupEnd(first: Journal, before: Tree, journal: Journal, tree: Tree, g: Group, uid: nat, ok: bool,
                           added: seq<Item>, steady: bool)
    requires ProperGroup(g)
  {
    && (RootRecovered(ok, added) ==> Ended(journal, tree, g))
    && Considerate(before, tree, g.root, uid)
    && (g.root.id in journal && journal[g.root.id].phase.Reclaimed? ==> OwnTree(before, g.root, uid))
    && (Tidy(before, g.root) ==> Elsewhere(before, tree, g.root))
    && (steady && Fit(g) ==> ok)
    && (WholeGroup(first, before, g) && !Lost(before, tree, g.root) ==> Kept(before, journal, tree, g, uid))
    && (WholeGroup(first, before, g) && steady && Clearable(first, before, g, uid) ==> RootRecovered(ok, added))
  }

  lemma WholeAgain(journal: Journal, before: Tree, next: Journal, tree: Tree, g: Group)
    requires ProperGroup(g) && WholeGroup(journal, before, g) && GroupState(next, tree, g.root.id)
    requires Touches(journal, next, g.root.id) && SameClaim(journal[g.root.id], next[g.root.id])
    ensures WholeGroup(next, tree, g)
  {
    hide Unmoved, Moved, AimsRight, WellFormed, Publishable;
    var id := g.root.id;
    assert IsMember(journal[id], journal[id]);
    assert next == journal[id := next[id]];
    RewriteMembers(journal, id, id, next[id]);
  }

  /** A root found at neither place has lost its tree. */
  lemma GoneLost(journal: Journal, before: Tree, tree: Tree, g: Group)
    requires ProperGroup(g) && WholeGroup(journal, before, g) && g.root.id in journal && journal[g.root.id] == g.root
    requires g.root.identity.path !in tree && Own(g.root.id) !in tree
    ensures Lost(before, tree, g.root)
  {
    var root := g.root;
    assert IsMember(root, root) && Aim(root, root) == Own(root.id);
    assert root.identity.path + [] == root.identity.path && Own(root.id) + [] == Own(root.id);
    assert HasEntry(before, root, []) && !HasEntry(tree, root, []);
  }

  lemma PreparedKept(first: Journal, journal: Journal, tree: Tree, g: Group, uid: nat)
    requires ProperGroup(g) && Untouched(first, g) && Advances(first, journal) && SameNotes(first, journal)
    requires WholeGroup(first, tree, g) ==> WholeGroup(journal, tree, g)
    ensures WholeGroup(first, tree, g) ==> Kept(tree, journal, tree, g, uid) && Elsewhere(tree, tree, g.root)
  {
    hide WholeGroup, Roomy;
  }

  lemma GroupKept(first: Journal, prepared: Journal, before: Tree, journal: Journal, tree: Tree, g: Group, uid: nat)
    requires ProperGroup(g) && WholeGroup(prepared, before, g) && GroupState(journal, tree, g.root.id)
    requires Kept(before, prepared, before, g, uid)
    requires Touches(prepared, journal, g.root.id) && Advances(prepared, journal) && prepared[g.root.id] == g.root
    requires journal[g.root.id].observations <= g.root.observations + 1
    requires Roomy(g.root, before, uid) ==> Roomy(g.root, tree, uid)
    ensures Kept(before, journal, tree, g, uid)
  {
    hide GroupState, Roomy;
    assert Holds(g, g.root);
    WholeAgain(prepared, before, journal, tree, g);
    forall r | Holds(g, r)
      ensures r.id in journal && SameClaim(r, journal[r.id]) && journal[r.id].observations <= r.observations + 1
    {
      assert SameClaim(r, prepared[r.id]);
    }
  }

  // ---- closing the members ----

  ghost predicate Closing(first: Journal, journal: Journal, g: Group, added: seq<Item>)
    requires ProperGroup(g) && |added| <= |g.members|
  {
    && DistinctIds(g) && Advances(first, journal) && TouchesGroup(first, journal, g)
    && g.root.id in journal && journal[g.root.id].phase.Reclaimed?
    && (forall j :: |added| <= j < |g.members| ==>
                      g.members[j].id in journal && Aimed(g.root, g.members[j], journal[g.members[j].id]))
    && (forall j :: 0 <= j < |added| ==> ClosedAs(g.members[j], added[j], journal))
  }

  lemma ClosingMeans(first: Journal, journal: Journal, g: Group, added: seq<Item>)
    requires ProperGroup(g) && |added| <= |g.members| && Closing(first, journal, g, added)
    ensures Advances(first, journal) && TouchesGroup(first, journal, g)
    ensures forall j :: 0 <= j < |added| ==> ClosedAs(g.members[j], added[j], journal)
  {}

  lemma CloseStart(journal: Journal, g: Group)
    requires ProperGroup(g) && DistinctIds(g) && AllPrepared(journal, g, |g.members|)
    requires g.root.id in journal && journal[g.root.id].phase.Reclaimed?
    ensures Closing(journal, journal, g, [])
  {
    AdvancesSelf(journal);
  }

  lemma CloseNext(first: Journal, journal: Journal, tree: Tree, g: Group, added: seq<Item>)
    requires ProperGroup(g) && |added| < |g.members| && Closing(first, journal, g, added)
    requires WellFormed(tree) && g.root.identity.path != [] && g.root.identity.path !in tree && Own(g.root.id) !in tree
    requires forall d :: d in g.members ==> InResources(d.identity.path)
    ensures var d := g.members[|added|];
            && d.id in journal && journal[d.id].phase.CleanupIntent? && IsClaim(journal[d.id])
            && journal[d.id].identity.Place?
            && Settled(journal[d.id], journal, tree) && d in g.members && journal[d.id].observations == d.observations
  {
    hide WellFormed, Settled;
    var d := g.members[|added|];
    assert d in g.members;
    MemberSettled(journal[d.id], journal, tree, g.root.identity.path, g.root.id);
  }

  lemma ClosedNext(first: Journal, journal: Journal, g: Group, next: Journal, added: seq<Item>)
    requires ProperGroup(g) && 0 < |added| <= |g.members| && Closing(first, journal, g, added[..|added| - 1])
    requires var d := g.members[|added| - 1];
             && d.id in journal && Touches(journal, next, d.id) && Advances(journal, next)
             && next[d.id] == Changed(journal[d.id], Reclaimed, None, Noted)
             && added[|added| - 1] == ItemOf(next[d.id], Recovered, None)
    ensures Closing(first, next, g, added)
  {
    AdvancesChain(first, journal, next);
    assert Holds(g, g.members[|added| - 1]);
    forall j | 0 <= j < |added| - 1 ensures ClosedAs(g.members[j], added[j], next) {
      assert added[..|added| - 1][j] == added[j];
    }
  }

  ghost predicate InGroup(journal: Journal, tree: Tree, root: Record, d: Record) {
    && GroupState(journal, tree, root.id) && journal[root.id].identity == root.identity
    && d.id in journal && journal[d.id] == d && IsMember(d, journal[root.id])
  }

  /** `now` is the member `d` with cleanup intent and its aimed target on record. */
  predicate Aimed(root: Record, d: Record, now: Record)
    requires root.identity.Place? && d.identity.Place? && root.identity.path <= d.identity.path
  {
    now == d.(phase := CleanupIntent, target := Some(Aim(root, d)))
  }

  lemma CloseKeeps(closures: seq<Closure>, journal: Journal, next: Journal, tree: Tree, id: string)
    requires AllClosed(closures, journal, tree) && Advances(journal, next) && id in journal && JournalOk(next)
    requires journal[id].identity.Place? && Settled(journal[id], journal, tree)
    ensures AllClosed(closures, next, tree)
    ensures next[id] == Changed(journal[id], Reclaimed, None, Noted) ==>
              AllClosed(closures + [Closure(next[id], tree)], next, tree)
  {
    ClosedAdvance(closures, journal, next, tree);
    SettledAdvance(journal[id], journal, next, tree);
    if next[id] == Changed(journal[id], Reclaimed, None, Noted) {
      SettledGone(next[id], next, tree);
    }
  }

  lemma RenameApart(tree: Tree, src: Path, id: string)
    requires WellFormed(tree) && CanMove(tree, src, Own(id)) && (InResources(src) || InQuarantine(src))
    requires src != Own(id)
    ensures Apart(src, Own(id))
  {
    if src <= Own(id) { PrefixCases(src, Own(id)); }
    if Own(id) !in tree && Own(id) <= src { AbsentBelow(tree, Own(id), src); }
  }

  lemma QuarantineStays(tree: Tree, src: Path, id: string)
    requires QuarantineOpen(tree) && (InResources(src) || InQuarantine(src))
    ensures QuarantineOpen(Move(tree, src, Own(id)))
  {
    var q := ["quarantine"];
    assert |src| > 1 && !(src <= q) && !(Own(id) <= q);
  }

  lemma PrunedQuarantine(tree: Tree, id: string, t: Tree)
    requires QuarantineOpen(tree) && Pruned(tree, Own(id), t)
    ensures QuarantineOpen(t)
  {
    assert !(Own(id) <= ["quarantine"]);
  }
}
