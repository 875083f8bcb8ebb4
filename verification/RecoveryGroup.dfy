/** A nested group of claims between two crashes: what every step before the first unlink
    keeps, so that a rerun can finish the work. */
module RecoveryGroup {
  import opened Options
  import opened RecoveryTree
  import opened RecoveryRecords
  import opened RecoverySafety

  /** A claim recovery may clean up. */
  predicate Ready(r: Record) {
    && IsClaim(r) && r.owned && r.identity.Place? && InResources(r.identity.path)
    && (r.kind.RetainedSource? || r.phase.RetainedByPolicy? ==> r.recoverable)
    && !Terminal(r.phase)
  }

  predicate IsMember(r: Record, root: Record)
    requires Ready(root)
  {
    && Ready(r) && root.identity.path <= r.identity.path
    && (r.id != root.id ==> root.identity.path < r.identity.path)
  }

  /** Where the root's own rename carries a member. */
  function Aim(root: Record, r: Record): Path
    requires root.identity.Place? && r.identity.Place? && root.identity.path <= r.identity.path
  {
    Own(root.id) + r.identity.path[|root.identity.path|..]
  }

  ghost predicate Unmoved(journal: Journal, tree: Tree, root: Record)
    requires Ready(root)
  {
    && Own(root.id) !in tree
    && forall id :: id in journal && IsMember(journal[id], root) ==>
         IsDir(tree, journal[id].identity.path, journal[id].identity.stamp)
  }

  ghost predicate Moved(journal: Journal, tree: Tree, root: Record)
    requires Ready(root)
  {
    && root.identity.path !in tree
    && (forall k :: 0 < k < |root.identity.path| ==>
                      root.identity.path[..k] in tree && tree[root.identity.path[..k]].Dir?)
    && forall id :: id in journal && IsMember(journal[id], root) ==>
         && journal[id].target == Some(Aim(root, journal[id]))
         && IsDir(tree, Aim(root, journal[id]), journal[id].identity.stamp)
  }

  ghost predicate AimsRight(journal: Journal, root: Record)
    requires Ready(root)
  {
    forall id :: id in journal && IsMember(journal[id], root) && journal[id].target.Some? ==>
                   journal[id].target.value == Aim(root, journal[id])
  }

  /** Every member is at its own path or, all together, where the root's rename put them. */
  ghost predicate GroupState(journal: Journal, tree: Tree, rootId: string) {
    && JournalOk(journal) && WellFormed(tree) && QuarantineOpen(tree)
    && rootId in journal && Ready(journal[rootId])
    && AimsRight(journal, journal[rootId])
    && (Unmoved(journal, tree, journal[rootId]) || Moved(journal, tree, journal[rootId]))
  }

  lemma AimAbsent(tree: Tree, root: Record, r: Record)
    requires Ready(root) && IsMember(r, root) && WellFormed(tree) && QuarantineOpen(tree) && Own(root.id) !in tree
    ensures Find(tree, Aim(root, r)).Absent?
  {
    var aim := Aim(root, r);
    AbsentBelow(tree, Own(root.id), aim);
    forall k | 0 < k < |aim| ensures !(aim[..k] in tree && tree[aim[..k]].Leaf?) {
      if k == 1 {
        assert aim[..1] == ["quarantine"];
      } else {
        assert aim[..k][..2] == Own(root.id);
        AbsentBelow(tree, Own(root.id), aim[..k]);
      }
    }
  }

  lemma PathAbsent(tree: Tree, root: Record, r: Record)
    requires Ready(root) && IsMember(r, root) && WellFormed(tree) && root.identity.path !in tree
    requires forall k :: 0 < k < |root.identity.path| ==>
                           root.identity.path[..k] in tree && tree[root.identity.path[..k]].Dir?
    ensures Find(tree, r.identity.path).Absent?
  {
    var top, path := root.identity.path, r.identity.path;
    AbsentBelow(tree, top, path);
    forall k | 0 < k < |path| ensures !(path[..k] in tree && tree[path[..k]].Leaf?) {
      if k < |top| {
        assert path[..k] == top[..k];
      } else {
        assert top <= path[..k];
        AbsentBelow(tree, top, path[..k]);
      }
    }
  }

  /** Every member is found, at exactly one of its path and its target. */
  lemma MemberLocated(journal: Journal, tree: Tree, rootId: string, id: string)
    requires GroupState(journal, tree, rootId) && id in journal && IsMember(journal[id], journal[rootId])
    ensures Unmoved(journal, tree, journal[rootId]) ==> Locate(tree, journal[id]) == At(journal[id].identity.path)
    ensures Moved(journal, tree, journal[rootId]) ==> Locate(tree, journal[id]) == At(Aim(journal[rootId], journal[id]))
    ensures var l := Locate(tree, journal[id]);
            && l.At? && IsDir(tree, l.path, journal[id].identity.stamp)
            && (l.path != journal[id].identity.path ==> journal[id].identity.path !in tree)
            && (journal[id].target.Some? && l.path != journal[id].target.value ==> journal[id].target.value !in tree)
  {
    hide WellFormed;
    var root := journal[rootId];
    if Unmoved(journal, tree, root) {
      AimAbsent(tree, root, journal[id]);
    } else {
      PathAbsent(tree, root, journal[id]);
    }
  }

  /** Two journals whose members stand at the same places. */
  ghost predicate SameMembers(journal: Journal, root: Record, next: Journal, root': Record)
    requires Ready(root) && Ready(root')
  {
    && root'.id == root.id && root'.identity == root.identity && next.Keys == journal.Keys
    && (forall x :: x in journal ==> (IsMember(next[x], root') <==> IsMember(journal[x], root)))
    && (forall x :: x in journal && !IsMember(journal[x], root) ==> next[x] == journal[x])
    && (forall x :: x in journal ==> next[x].identity == journal[x].identity)
  }

  lemma RewriteMembers(journal: Journal, rootId: string, id: string, r: Record)
    requires JournalOk(journal) && rootId in journal && Ready(journal[rootId])
    requires id in journal && IsMember(journal[id], journal[rootId]) && SameClaim(journal[id], r) && Ready(r)
    ensures Ready(journal[id := r][rootId])
    ensures SameMembers(journal, journal[rootId], journal[id := r], journal[id := r][rootId])
  {
    var next := journal[id := r];
    assert next[rootId].id == rootId && next[rootId].identity == journal[rootId].identity;
  }

  /** Rewriting a member with its aimed target, in whatever open phase, keeps the group together. */
  lemma AimKeeps(journal: Journal, tree: Tree, rootId: string, id: string, r: Record)
    requires GroupState(journal, tree, rootId) && id in journal && IsMember(journal[id], journal[rootId])
    requires SameClaim(journal[id], r) && Publishable(r) && Ready(r)
    requires r.target == Some(Aim(journal[rootId], journal[id]))
    ensures GroupState(journal[id := r], tree, rootId)
    ensures Unmoved(journal, tree, journal[rootId]) ==> Unmoved(journal[id := r], tree, journal[id := r][rootId])
    ensures Moved(journal, tree, journal[rootId]) ==> Moved(journal[id := r], tree, journal[id := r][rootId])
  {
    hide IsMember, Ready, WellFormed, Publishable;
    RewriteMembers(journal, rootId, id, r);
  }

  ghost predicate AllAimed(journal: Journal, root: Record)
    requires Ready(root)
  {
    forall id :: id in journal && IsMember(journal[id], root) ==> journal[id].target == Some(Aim(root, journal[id]))
  }

  lemma MemberMoves(tree: Tree, root: Record, r: Record)
    requires Ready(root) && IsMember(r, root) && IsDir(tree, r.identity.path, r.identity.stamp)
    ensures IsDir(Move(tree, root.identity.path, Own(root.id)), Aim(root, r), r.identity.stamp)
  {
    var aim := Aim(root, r);
    assert aim[|Own(root.id)|..] == r.identity.path[|root.identity.path|..];
    PrefixSplit(root.identity.path, r.identity.path);
  }

  lemma RenameAllowed(tree: Tree, top: Path, id: string)
    requires WellFormed(tree) && QuarantineOpen(tree) && top in tree && InResources(top) && Own(id) !in tree
    ensures CanMove(tree, top, Own(id)) && Apart(top, Own(id))
    ensures WellFormed(Move(tree, top, Own(id))) && QuarantineOpen(Move(tree, top, Own(id)))
  {
    ResourcesApart(top, id);
    assert Own(id)[..1] == ["quarantine"];
    MoveWellFormed(tree, top, Own(id));
    assert !(Own(id) <= ["quarantine"]) && !(top <= ["quarantine"]);
  }

  lemma ParentsStay(tree: Tree, top: Path, id: string)
    requires WellFormed(tree) && top in tree && Apart(top, Own(id))
    ensures top !in Move(tree, top, Own(id))
    ensures forall k :: 0 < k < |top| ==>
                          top[..k] in Move(tree, top, Own(id)) && Move(tree, top, Own(id))[top[..k]].Dir?
  {
    hide Move;
    forall k | 0 < k < |top| ensures top[..k] in tree && !(top <= top[..k]) && !(Own(id) <= top[..k]) {
      assert Own(id) <= top[..k] ==> Own(id) <= top;
    }
  }

  lemma RenameMoves(journal: Journal, tree: Tree, root: Record)
    requires Ready(root) && WellFormed(tree) && root.identity.path in tree && Apart(root.identity.path, Own(root.id))
    requires Unmoved(journal, tree, root) && AllAimed(journal, root)
    ensures Moved(journal, Move(tree, root.identity.path, Own(root.id)), root)
  {
    hide Move, WellFormed, Aim, IsDir;
    ParentsStay(tree, root.identity.path, root.id);
    forall id | id in journal && IsMember(journal[id], root)
      ensures IsDir(Move(tree, root.identity.path, Own(root.id)), Aim(root, journal[id]), journal[id].identity.stamp)
    {
      MemberMoves(tree, root, journal[id]);
    }
  }

  /** Once every member is aimed, the rename carries the whole group over. */
  lemma RenameKeeps(journal: Journal, tree: Tree, rootId: string)
    requires GroupState(journal, tree, rootId) && Unmoved(journal, tree, journal[rootId])
    requires AllAimed(journal, journal[rootId])
    ensures CanMove(tree, journal[rootId].identity.path, Own(rootId))
    ensures GroupState(journal, Move(tree, journal[rootId].identity.path, Own(rootId)), rootId)
    ensures Moved(journal, Move(tree, journal[rootId].identity.path, Own(rootId)), journal[rootId])
  {
    var root := journal[rootId];
    assert IsMember(root, root);
    assert root.identity.path in tree && root.id == rootId;
    hide Move, IsMember, WellFormed, Aim, IsDir, Moved, Unmoved, CanMove, AimsRight;
    RenameAllowed(tree, root.identity.path, rootId);
    RenameMoves(journal, tree, root);
  }

  /** A crash right after the rename can be recovered from exactly when the recorded target is the name
      the rename uses; any other recorded target leaves the directory where no validation looks. */
  lemma CrashAfterRename(tree: Tree, r: Record)
    requires WellFormed(tree) && IsClaim(r) && Publishable(r) && r.target.Some? && r.identity.Place?
    requires Locate(tree, r) == At(r.identity.path) && CanMove(tree, r.identity.path, Own(r.id))
    ensures Locate(Move(tree, r.identity.path, Own(r.id)), r).At? <==> r.target.value == Own(r.id)
  {
    var path, own, aim := r.identity.path, Own(r.id), r.target.value;
    var t := Move(tree, path, own);
    ResourcesApart(path, r.id);
    MoveWellFormed(tree, path, own);
    MoveTop(tree, path, own);
    assert path !in t;
    if aim == own {
      PathAbsentAfter(tree, r);
    }
  }

  /** A claim aimed below another claim's quarantine name, as a member of a group is. */
  function AimedMember(): Record {
    Record("b", "s", Filesystem, false, CleanupIntent, Place(["resources", "b"], Stamp(1, 3, "t")), false, true, "c",
           "boot",
           Some(Own("a") + ["b"]), 0, false, false)
  }

  function AimedTree(): Tree {
    map[["resources"] := Dir(Stamp(1, 1, ""), 0), ["quarantine"] := Dir(Stamp(1, 2, ""), 0),
        ["resources", "b"] := Dir(Stamp(1, 3, "t"), 0)]
  }

  lemma AimedTreeHangs()
    ensures WellFormed(AimedTree())
  {
    var tree := AimedTree();
    forall p, k | p in tree && 0 < k < |p| ensures p[..k] in tree && tree[p[..k]].Dir? {
      assert p == ["resources", "b"] && k == 1;
      assert p[..k] == ["resources"];
    }
  }

  lemma AimedMemberFound()
    ensures IsClaim(AimedMember()) && Publishable(AimedMember())
    ensures Locate(AimedTree(), AimedMember()) == At(["resources", "b"])
  {
    var aim := Own("a") + ["b"];
    assert aim[0] == "quarantine" && aim[1] == "reclaim-" + "a";
    assert Find(AimedTree(), aim).Absent? by {
      forall k | 0 < k < |aim| ensures !(aim[..k] in AimedTree() && AimedTree()[aim[..k]].Leaf?) {}
    }
  }

  /** Such a claim is found before the rename that its own removal makes, and refused after it. */
  lemma AimedMemberLost()
    ensures WellFormed(AimedTree()) && IsClaim(AimedMember()) && Publishable(AimedMember())
    ensures Locate(AimedTree(), AimedMember()) == At(AimedMember().identity.path)
    ensures CanMove(AimedTree(), AimedMember().identity.path, Own("b"))
    ensures Locate(Move(AimedTree(), AimedMember().identity.path, Own("b")), AimedMember()).Refused?
  {
    AimedTreeHangs();
    AimedMemberFound();
    hide WellFormed, Locate, Publishable, Move;
    assert Own("b")[..|Own("b")| - 1] == ["quarantine"];
    CrashAfterRename(AimedTree(), AimedMember());
  }

  lemma PathAbsentAfter(tree: Tree, r: Record)
    requires WellFormed(tree) && r.identity.Place? && InResources(r.identity.path) && r.identity.path in tree
    ensures Find(Move(tree, r.identity.path, Own(r.id)), r.identity.path).Absent?
  {
    hide Move;
    var path := r.identity.path;
    ResourcesApart(path, r.id);
    ParentsStay(tree, path, r.id);
  }
}
