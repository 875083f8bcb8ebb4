/** Why a claim once recorded as reclaimed stays gone, whatever later attempts move or remove. */
module RecoverySafety {
  import opened RecoveryTree
  import opened RecoveryRecords

  type Journal = map<string, Record>

  ghost predicate JournalOk(journal: Journal) {
    forall id :: id in journal ==> journal[id].id == id && Publishable(journal[id])
  }

  ghost predicate QuarantineOpen(tree: Tree) {
    ["quarantine"] in tree && tree[["quarantine"]].Dir?
  }

  /** The journal keeps every record and every terminal phase. */
  ghost predicate Advances(journal: Journal, next: Journal) {
    && journal.Keys == next.Keys
    && (forall id :: id in journal ==> SameClaim(journal[id], next[id]))
    && (forall id :: id in journal && Terminal(journal[id].phase) ==> next[id] == journal[id])
  }

  ghost predicate SameClaim(a: Record, b: Record) {
    a.id == b.id && a.session == b.session && a.kind == b.kind && a.identity == b.identity && a.owned == b.owned
  }

  lemma AdvancesSelf(journal: Journal)
    ensures Advances(journal, journal)
  {}

  lemma AdvancesChain(a: Journal, b: Journal, c: Journal)
    requires Advances(a, b) && Advances(b, c)
    ensures Advances(a, c)
  {}

  /** Why the claim can never be back: either nothing carries its stamp any more, or both its places
      are empty and only a claim already reclaimed could refill the second. */
  ghost predicate Settled(r: Record, journal: Journal, tree: Tree)
    requires r.identity.Place?
  {
    || NoTrace(tree, r.identity.stamp)
    || (&& InResources(r.identity.path) && r.identity.path !in tree
        && r.target.Some? && r.target.value !in tree
        && exists root :: root in journal && journal[root].phase.Reclaimed? && Own(root) <= r.target.value)
  }

  lemma NoTraceSettled(r: Record, journal: Journal, tree: Tree)
    requires r.identity.Place? && NoTrace(tree, r.identity.stamp)
    ensures Settled(r, journal, tree)
  {}

  lemma SettledGone(r: Record, journal: Journal, tree: Tree)
    requires r.identity.Place? && Settled(r, journal, tree)
    ensures Gone(r, tree)
  {}

  lemma SettledAdvance(r: Record, journal: Journal, next: Journal, tree: Tree)
    requires r.identity.Place? && Settled(r, journal, tree) && Advances(journal, next)
    ensures Settled(r, next, tree)
  {
    if !NoTrace(tree, r.identity.stamp) {
      var root :| root in journal && journal[root].phase.Reclaimed? && Own(root) <= r.target.value;
      assert root in next && next[root].phase.Reclaimed?;
    }
  }

  lemma SettledPruned(r: Record, journal: Journal, tree: Tree, t: Tree)
    requires r.identity.Place? && Settled(r, journal, tree)
    requires forall q :: q in t ==> q in tree && t[q] == tree[q]
    ensures Settled(r, journal, t)
  {
    if NoTrace(tree, r.identity.stamp) {
      forall p | p in t ensures !IsDir(t, p, r.identity.stamp) { assert !IsDir(tree, p, r.identity.stamp); }
    }
  }

  lemma SettledMove(r: Record, journal: Journal, tree: Tree, src: Path, id: string)
    requires r.identity.Place? && Settled(r, journal, tree)
    requires id in journal && !journal[id].phase.Reclaimed?
    ensures Settled(r, journal, Move(tree, src, Own(id)))
  {
    var t := Move(tree, src, Own(id));
    if NoTrace(tree, r.identity.stamp) {
      forall p | p in t ensures !IsDir(t, p, r.identity.stamp) {
        var q := if Own(id) <= p then src + p[|Own(id)|..] else p;
        assert !IsDir(tree, q, r.identity.stamp);
      }
    } else {
      var root :| root in journal && journal[root].phase.Reclaimed? && Own(root) <= r.target.value;
      if Own(id) <= r.target.value {
        OwnApart(root, id);
        PrefixOfPrefix(Own(root), Own(id), r.target.value);
        assert false;
      }
      assert r.identity.path !in t && r.target.value !in t;
    }
  }

  // ---- every closure, at the moment it was recorded and ever since ----

  /** A claim recorded as reclaimed, and the tree at that moment. */
  datatype Closure = Closure(record: Record, tree: Tree)

  ghost predicate Closed(c: Closure, journal: Journal, tree: Tree) {
    && c.record.identity.Place? && Gone(c.record, c.tree)
    && c.record.id in journal && journal[c.record.id] == c.record && c.record.phase.Reclaimed?
    && Settled(c.record, journal, tree)
  }

  ghost predicate AllClosed(closures: seq<Closure>, journal: Journal, tree: Tree) {
    forall c :: c in closures ==> Closed(c, journal, tree)
  }

  ghost predicate Logged(closures: seq<Closure>, id: string) {
    exists c :: c in closures && c.record.id == id
  }

  /** Every claim reclaimed since `origin` is on the log. */
  ghost predicate Recorded(closures: seq<Closure>, journal: Journal, origin: set<string>) {
    forall id :: id in journal && IsClaim(journal[id]) && journal[id].phase.Reclaimed? && id !in origin ==>
                   Logged(closures, id)
  }

  lemma RecordedMore(closures: seq<Closure>, journal: Journal, origin: set<string>, next: Journal, id: string,
                     more: seq<Closure>)
    requires Recorded(closures, journal, origin) && journal.Keys == next.Keys
    requires forall x :: x in journal && x != id ==> next[x] == journal[x]
    requires id in journal && (IsClaim(next[id]) && next[id].phase.Reclaimed? ==>
                                 next[id] == journal[id] || Logged(more, id))
    ensures Recorded(closures + more, next, origin)
  {
    forall x | x in next && IsClaim(next[x]) && next[x].phase.Reclaimed? && x !in origin
      ensures Logged(closures + more, x)
    {
      if x != id || next[x] == journal[x] {
        var c :| c in closures && c.record.id == x;
        assert c in closures + more;
      } else {
        var c :| c in more && c.record.id == x;
        assert c in closures + more;
      }
    }
  }

  lemma ClosedAdvance(closures: seq<Closure>, journal: Journal, next: Journal, tree: Tree)
    requires AllClosed(closures, journal, tree) && Advances(journal, next)
    ensures AllClosed(closures, next, tree)
  {
    hide Settled;
    forall c | c in closures ensures Closed(c, next, tree) {
      SettledAdvance(c.record, journal, next, tree);
    }
  }

  lemma ClosedPruned(closures: seq<Closure>, journal: Journal, tree: Tree, t: Tree)
    requires AllClosed(closures, journal, tree)
    requires forall q :: q in t ==> q in tree && t[q] == tree[q]
    ensures AllClosed(closures, journal, t)
  {
    hide Settled;
    forall c | c in closures ensures Closed(c, journal, t) {
      SettledPruned(c.record, journal, tree, t);
    }
  }

  lemma ClosedMove(closures: seq<Closure>, journal: Journal, tree: Tree, src: Path, id: string)
    requires AllClosed(closures, journal, tree) && id in journal && !journal[id].phase.Reclaimed?
    ensures AllClosed(closures, journal, Move(tree, src, Own(id)))
  {
    hide Settled;
    forall c | c in closures ensures Closed(c, journal, Move(tree, src, Own(id))) {
      SettledMove(c.record, journal, tree, src, id);
    }
  }

  // ---- the two ways a claim is closed ----

  /** What rename and removal together leave. */
  function Cleared(tree: Tree, located: Path, id: string): Tree {
    Cut(if located == Own(id) then tree else Move(tree, located, Own(id)), Own(id))
  }

  /** Nothing with the claim's stamp is left once its tree is cleared. */
  lemma RootClosed(r: Record, tree: Tree, located: Path, id: string)
    requires r.identity.Place? && OneName(tree) && IsDir(tree, located, r.identity.stamp)
    ensures NoTrace(Cleared(tree, located, id), r.identity.stamp)
  {
    var left := Cleared(tree, located, id);
    forall p | p in left ensures !IsDir(left, p, r.identity.stamp) {
      assert p in tree && left[p] == tree[p];
      assert IsDir(tree, p, r.identity.stamp) ==> p == located;
    }
  }

  lemma ResourcesApart(p: Path, id: string)
    requires InResources(p)
    ensures Apart(p, Own(id))
  {
    assert p[0] != Own(id)[0];
  }

  lemma PathGone(r: Record, tree: Tree, located: Path)
    requires r.identity.Place? && InResources(r.identity.path)
    requires (located != r.identity.path ==> r.identity.path !in tree)
    ensures r.identity.path !in Cleared(tree, located, r.id) && Own(r.id) !in Cleared(tree, located, r.id)
  {
    ResourcesApart(r.identity.path, r.id);
  }

  /** A claim below a reclaimed root, with both its places below the root's two empty places. */
  lemma MemberSettled(r: Record, journal: Journal, tree: Tree, top: Path, rootId: string)
    requires r.identity.Place? && InResources(r.identity.path) && WellFormed(tree)
    requires top <= r.identity.path && top != [] && top !in tree
    requires r.target.Some? && Own(rootId) <= r.target.value && Own(rootId) !in tree
    requires rootId in journal && journal[rootId].phase.Reclaimed?
    ensures Settled(r, journal, tree)
  {
    AbsentBelow(tree, top, r.identity.path);
    AbsentBelow(tree, Own(rootId), r.target.value);
  }
}
