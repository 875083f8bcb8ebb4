/** All the nested groups of a journal at once: what one group's removal leaves of the others. */
module RecoveryFleet {
  import opened RecoveryTree
  import opened RecoveryRecords
  import opened RecoverySafety
  import opened RecoveryGroup

  /** A claim recovery may clean up, with no other such claim around it. */
  ghost predicate IsTop(journal: Journal, id: string) {
    && id in journal && Ready(journal[id])
    && forall x :: x in journal && Ready(journal[x]) ==> !(journal[x].identity.path < journal[id].identity.path)
  }

  ghost predicate AllReady(journal: Journal) {
    forall id :: id in journal ==> (journal[id].owned && journal[id].phase.Reclaimed?) || Ready(journal[id])
  }

  ghost predicate DistinctPlaces(journal: Journal) {
    forall x, y :: x in journal && y in journal && x != y && Ready(journal[x]) && Ready(journal[y]) ==>
      journal[x].identity.path != journal[y].identity.path
  }

  /** Every reclaimed cgroup was recorded with the evidence of its emptiness. */
  ghost predicate Evidenced(journal: Journal) {
    forall id :: id in journal && journal[id].kind.Cgroup? && journal[id].phase.Reclaimed? ==> journal[id].evidence
  }

  /** Nothing is protected: every open record is a claim to clean up, each nested group together. */
  ghost predicate Fleet(journal: Journal, tree: Tree) {
    && JournalOk(journal) && WellFormed(tree) && QuarantineOpen(tree)
    && AllReady(journal) && DistinctPlaces(journal)
    && forall id :: IsTop(journal, id) ==> GroupState(journal, tree, id)
  }

  /** Every claim lies in the group of some outermost one. */
  lemma {:induction false} TopExists(journal: Journal, id: string) returns (top: string)
    requires DistinctPlaces(journal) && id in journal && Ready(journal[id]) && JournalOk(journal)
    ensures IsTop(journal, top) && IsMember(journal[id], journal[top])
    decreases |journal[id].identity.path|
  {
    if IsTop(journal, id) {
      top := id;
    } else {
      var x :| x in journal && Ready(journal[x]) && journal[x].identity.path < journal[id].identity.path;
      top := TopExists(journal, x);
    }
  }

  /** Every claim is found, at exactly one of its recorded path and its target. */
  lemma ClaimLocated(journal: Journal, tree: Tree, id: string)
    requires Fleet(journal, tree) && id in journal && Ready(journal[id])
    ensures var l := Locate(tree, journal[id]);
            && l.At? && IsDir(tree, l.path, journal[id].identity.stamp)
            && (l.path != journal[id].identity.path ==> journal[id].identity.path !in tree)
            && (journal[id].target.Some? && l.path != journal[id].target.value ==> journal[id].target.value !in tree)
  {
    hide WellFormed, GroupState, IsTop;
    var top := TopExists(journal, id);
    MemberLocated(journal, tree, top, id);
  }

  /** Claims no attempt has touched: no target fixed, every claim at its own path. */
  lemma FreshFleet(journal: Journal, tree: Tree)
    requires JournalOk(journal) && WellFormed(tree) && QuarantineOpen(tree) && AllReady(journal)
    requires DistinctPlaces(journal)
    requires forall id :: id in journal && Ready(journal[id]) ==>
               journal[id].target.None? && Locate(tree, journal[id]) == At(journal[id].identity.path)
    requires forall id :: IsTop(journal, id) ==> Own(id) !in tree
    ensures Fleet(journal, tree)
  {}

  /** In plain words: our directories and recoverable retained sources in use, each at its own path under resources
      with its own stamp, no two at one path, and nothing yet under a quarantine name. */
  lemma UntouchedFleet(journal: Journal, tree: Tree)
    requires JournalOk(journal) && WellFormed(tree) && QuarantineOpen(tree)
    requires forall id :: id in journal ==>
               && journal[id].owned && (journal[id].kind.Filesystem? || journal[id].kind.RetainedSource?)
               && (journal[id].kind.RetainedSource? ==> journal[id].recoverable)
               && (journal[id].phase.DurableOwned? || journal[id].phase.Active?)
               && journal[id].identity.Place? && InResources(journal[id].identity.path) && journal[id].target.None?
               && IsDir(tree, journal[id].identity.path, journal[id].identity.stamp) && Own(id) !in tree
    requires forall x, y :: x in journal && y in journal && x != y ==>
               journal[x].identity.path != journal[y].identity.path
    ensures Fleet(journal, tree)
  {
    forall id | id in journal ensures Locate(tree, journal[id]) == At(journal[id].identity.path) {
      LocateExactly(tree, journal[id], journal[id].identity.path);
    }
    hide Locate, Fleet, WellFormed;
    FreshFleet(journal, tree);
  }

  // ---- one group's share of the tree ----

  /** Nothing changed but below the root's path and its quarantine name. */
  ghost predicate Elsewhere(tree: Tree, next: Tree, root: Record)
    requires root.identity.Place?
  {
    forall p :: !(root.identity.path <= p) && !(Own(root.id) <= p) ==>
                  (p in next <==> p in tree) && (p in tree ==> next[p] == tree[p])
  }

  lemma ElsewhereChain(a: Tree, b: Tree, c: Tree, root: Record)
    requires root.identity.Place? && Elsewhere(a, b, root) && Elsewhere(b, c, root)
    ensures Elsewhere(a, c, root)
  {}

  lemma MoveElsewhere(tree: Tree, root: Record)
    requires root.identity.Place?
    ensures Elsewhere(tree, Move(tree, root.identity.path, Own(root.id)), root)
  {}

  lemma PrunedElsewhere(tree: Tree, root: Record, next: Tree)
    requires root.identity.Place? && Pruned(tree, Own(root.id), next)
    ensures Elsewhere(tree, next, root)
  {}

  // ---- entries of a claim's tree ----

  /** The claim's tree has an entry at `s`, on whichever side of the rename it is. */
  predicate HasEntry(tree: Tree, root: Record, s: Path)
    requires root.identity.Place?
  {
    root.identity.path + s in tree || Own(root.id) + s in tree
  }

  /** The claim's tree has lost an entry: more than a rename has happened to it. */
  ghost predicate Lost(before: Tree, tree: Tree, root: Record)
    requires root.identity.Place?
  {
    exists s: Path :: HasEntry(before, root, s) && !HasEntry(tree, root, s)
  }

  ghost predicate NoneGained(before: Tree, tree: Tree, root: Record)
    requires root.identity.Place?
  {
    forall s: Path :: HasEntry(tree, root, s) ==> HasEntry(before, root, s)
  }

  lemma LostSince(start: Tree, before: Tree, tree: Tree, root: Record)
    requires root.identity.Place? && NoneGained(start, before, root) && Lost(before, tree, root)
    ensures Lost(start, tree, root)
  {
    var s: Path :| HasEntry(before, root, s) && !HasEntry(tree, root, s);
  }

  /** Whatever disappears from the tree a claim was fetched to is an entry that claim's tree has lost. */
  lemma FetchedLoses(before: Tree, fetched: Tree, tree: Tree, root: Record)
    requires root.identity.Place? && Apart(root.identity.path, Own(root.id)) && Pruned(fetched, Own(root.id), tree)
    requires tree != fetched
    requires WellFormed(before) && root.identity.path != []
    requires fetched == Move(before, root.identity.path, Own(root.id))
             || (fetched == before && root.identity.path !in before)
    ensures Lost(before, tree, root)
  {
    var path, own := root.identity.path, Own(root.id);
    var q :| q in fetched && q !in tree;
    var s := q[|own|..];
    PrefixSplit(own, q);
    assert HasEntry(before, root, s);
    if fetched == before {
      AbsentBelow(before, path, path + s);
    } else {
      Comparable(path, own, path + s);
    }
    assert !HasEntry(tree, root, s);
  }

  /** The rename itself loses nothing. */
  lemma RenameLosesNothing(tree: Tree, root: Record)
    requires root.identity.Place? && WellFormed(tree) && Own(root.id) !in tree
    ensures !Lost(tree, Move(tree, root.identity.path, Own(root.id)), root)
  {
    var path, own := root.identity.path, Own(root.id);
    forall s: Path | HasEntry(tree, root, s) ensures HasEntry(Move(tree, path, own), root, s) {
      AbsentBelow(tree, own, own + s);
      assert (own + s)[|own|..] == s;
    }
  }

  /** Two separate groups share nothing: neither their trees, their quarantine names nor the way there. */
  lemma OutsideOther(root: Record, top: Record, p: Path)
    requires Ready(root) && Ready(top) && root.id != top.id && Apart(root.identity.path, top.identity.path)
    requires top.identity.path <= p || p <= top.identity.path || Own(top.id) <= p
    requires p != []
    ensures !(root.identity.path <= p) && !(Own(root.id) <= p)
  {
    OwnApart(root.id, top.id);
    Comparable(root.identity.path, top.identity.path, p);
    Comparable(Own(root.id), Own(top.id), p);
  }

  lemma Comparable(a: Path, b: Path, p: Path)
    ensures a <= p && b <= p ==> a <= b || b <= a
  {
    if a <= p && b <= p {
      if |a| <= |b| { PrefixOfPrefix(a, b, p); } else { PrefixOfPrefix(b, a, p); }
    }
  }

  /** The journal differs only in claims below the other root. */
  ghost predicate OtherMembers(journal: Journal, next: Journal, top: Record)
    requires Ready(top)
  {
    && journal.Keys == next.Keys
    && (forall x :: x in journal ==> next[x].identity == journal[x].identity)
    && (forall x :: x in journal && (IsMember(journal[x], top) || IsMember(next[x], top)) ==> next[x] == journal[x])
  }

  lemma SeparateDirs(tree: Tree, next: Tree, root: Record, top: Record, p: Path)
    requires Ready(root) && Ready(top) && root.id != top.id && Apart(root.identity.path, top.identity.path)
    requires Elsewhere(tree, next, root)
    requires top.identity.path <= p || p <= top.identity.path || Own(top.id) <= p
    requires p != []
    ensures (p in next <==> p in tree) && (p in tree ==> next[p] == tree[p])
  {
    OutsideOther(root, top, p);
  }

  /** A separate group is as it was. */
  lemma SeparateKeeps(journal: Journal, tree: Tree, next: Journal, after: Tree, root: Record, topId: string)
    requires GroupState(journal, tree, topId) && JournalOk(next) && WellFormed(after) && QuarantineOpen(after)
    requires Ready(root) && root.id != topId && Apart(root.identity.path, journal[topId].identity.path)
    requires Elsewhere(tree, after, root)
    requires OtherMembers(journal, next, journal[topId])
    ensures GroupState(next, after, topId)
  {
    var top := journal[topId];
    assert IsMember(top, top) && next[topId] == top;
    hide Elsewhere, WellFormed, IsMember, Ready;
    SeparateDirs(tree, after, root, top, Own(topId));
    SeparateDirs(tree, after, root, top, top.identity.path);
    forall k | 0 < k < |top.identity.path|
      ensures top.identity.path[..k] in tree && tree[top.identity.path[..k]].Dir? ==>
                top.identity.path[..k] in after && after[top.identity.path[..k]].Dir?
    {
      SeparateDirs(tree, after, root, top, top.identity.path[..k]);
    }
    forall id | id in journal && IsMember(journal[id], top)
      ensures IsDir(tree, journal[id].identity.path, journal[id].identity.stamp) ==>
                IsDir(after, journal[id].identity.path, journal[id].identity.stamp)
      ensures IsDir(tree, Aim(top, journal[id]), journal[id].identity.stamp) ==>
                IsDir(after, Aim(top, journal[id]), journal[id].identity.stamp)
    {
      SeparateDirs(tree, after, root, top, journal[id].identity.path);
      SeparateDirs(tree, after, root, top, Aim(top, journal[id]));
    }
  }
}
