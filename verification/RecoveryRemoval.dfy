/** Bounded removal of a quarantined tree, one unlink at a time. */
module RecoveryRemoval {
  import opened RecoveryTree

  const MAX_ENTRIES := 10_000
  const MAX_DEPTH := 64

  /** Names of the entries directly below a directory. */
  function Names(tree: Tree, p: Path): (s: set<string>)
    ensures forall c :: c in s <==> p + [c] in tree
  {
    var s := set q | q in tree && |q| == |p| + 1 && p <= q :: q[|p|];
    assert forall c :: c in s <==> p + [c] in tree by {
      forall c | p + [c] in tree ensures c in s { assert (p + [c])[|p|] == c; }
      forall c | c in s ensures p + [c] in tree {
        var q :| q in tree && |q| == |p| + 1 && p <= q && q[|p|] == c;
        assert q == p + [c];
      }
    }
    s
  }

  /** Entries below `p` that lead through one of `names`. */
  predicate Through(p: Path, names: set<string>, q: Path) {
    p < q && q[|p|] in names
  }

  function Removed(tree: Tree, p: Path, names: set<string>): (s: set<Path>)
    ensures forall q :: q in s <==> q in tree && Through(p, names, q)
  {
    set q | q in tree && Through(p, names, q)
  }

  function Remaining(tree: Tree, p: Path, names: set<string>): (t: Tree)
    ensures forall q :: q in t <==> q in tree && !Through(p, names, q)
    ensures forall q :: q in t ==> t[q] == tree[q]
  {
    map q | q in tree && !Through(p, names, q) :: tree[q]
  }

  /** Everything below `p` is on one device, has one owner, and nests no deeper than `room`. */
  ghost predicate Fits(tree: Tree, p: Path, device: nat, uid: nat, room: int) {
    forall q :: q in tree && p <= q ==>
                  tree[q].Device() == device && tree[q].uid == uid && (tree[q].Dir? ==> |q| - |p| <= room)
  }

  lemma ThroughOne(p: Path, c: string, q: Path)
    ensures Through(p, {c}, q) <==> p + [c] <= q
  {
    if p + [c] <= q { assert q[|p|] == c; }
  }

  lemma RemainingNext(tree: Tree, p: Path, done: set<string>, c: string)
    requires c !in done
    ensures Cut(Remaining(tree, p, done), p + [c]) == Remaining(tree, p, done + {c})
    ensures |Removed(tree, p, done + {c})| == |Removed(tree, p, done)| + |Under(tree, p + [c])|
    ensures Under(Remaining(tree, p, done), p + [c]) == Under(tree, p + [c])
  {
    forall q ensures Through(p, done + {c}, q) <==> Through(p, done, q) || p + [c] <= q { ThroughOne(p, c, q); }
    forall q | p + [c] <= q ensures !Through(p, done, q) { ThroughOne(p, c, q); }
    assert Removed(tree, p, done + {c}) == Removed(tree, p, done) + Under(tree, p + [c]);
    assert Removed(tree, p, done) !! Under(tree, p + [c]);
  }

  lemma AllThrough(tree: Tree, p: Path, q: Path)
    requires WellFormed(tree) && q in tree && p <= q
    ensures q == p || Through(p, Names(tree, p), q)
  {
    hide Names;
    PrefixCases(p, q);
    if p < q {
      assert q[..|p| + 1] == p + [q[|p|]];
      PrefixCases(p + [q[|p|]], q);
    }
  }

  /** Once every name is gone only the directory itself is left below `p`. */
  lemma RemainingAll(tree: Tree, p: Path)
    requires WellFormed(tree) && p in tree
    ensures Cut(Remaining(tree, p, Names(tree, p)), p) == Cut(tree, p)
    ensures forall q :: q in Remaining(tree, p, Names(tree, p)) && p <= q ==> q == p
    ensures |Removed(tree, p, Names(tree, p))| == |Under(tree, p)| - 1
  {
    hide Names, Remaining, Cut, Under, Removed, WellFormed;
    var names := Names(tree, p);
    forall q | q in tree && p <= q ensures q == p || Through(p, names, q) { AllThrough(tree, p, q); }
    assert Under(tree, p) == Removed(tree, p, names) + {p};
  }

  lemma SubsetSize<T>(a: set<T>, b: set<T>)
    requires a <= b
    ensures |a| <= |b|
  {
    assert b == a + (b - a);
  }

  /** The whole of what `p` holds fits what is left of the budget. */
  ghost predicate Enough(tree: Tree, p: Path, device: nat, uid: nat, depth: nat, entries: nat) {
    depth <= MAX_DEPTH && Fits(tree, p, device, uid, MAX_DEPTH - depth) && entries + |Under(tree, p)| <= MAX_ENTRIES + 1
  }

  lemma EnoughNext(tree: Tree, p: Path, done: set<string>, c: string, device: nat, uid: nat, depth: nat, entries: nat)
    requires WellFormed(tree) && p in tree && Enough(tree, p, device, uid, depth, entries)
    requires c in Names(tree, p) && c !in done && done <= Names(tree, p)
    ensures Fits(Remaining(tree, p, done), p + [c], device, uid, MAX_DEPTH - depth - 1)
    ensures entries + |Removed(tree, p, done)| + |Under(Remaining(tree, p, done), p + [c])| <= MAX_ENTRIES
  {
    hide Names, Remaining, Removed, WellFormed, Under;
    var names := Names(tree, p);
    RemainingNext(tree, p, done, c);
    FitsChild(tree, p, c, Remaining(tree, p, done), device, uid, MAX_DEPTH - depth);
    RemainingAll(tree, p);
    SubsetSize(Removed(tree, p, done + {c}), Removed(tree, p, names));
  }

  lemma PrunedPart(tree: Tree, p: Path, done: set<string>, c: string, t: Tree)
    requires Pruned(Remaining(tree, p, done), p + [c], t)
    ensures Pruned(tree, p, t)
  {
    hide Remaining;
    forall q | q in tree && !(p <= q) ensures q in t {
      assert p + [c] <= q ==> p <= q;
    }
  }

  lemma NotYet(tree: Tree, p: Path, done: set<string>, c: string)
    requires c in Names(tree, p) && c !in done
    ensures p + [c] in Remaining(tree, p, done)
  {
    hide Names, Remaining;
    assert (p + [c])[|p|] == c;
  }

  lemma RemainingNone(tree: Tree, p: Path)
    ensures Remaining(tree, p, {}) == tree && Removed(tree, p, {}) == {}
  {}

  lemma Emptied(tree: Tree, p: Path, names: set<string>)
    requires WellFormed(tree) && p in tree
    ensures p in Remaining(tree, p, names) && Pruned(tree, p, Remaining(tree, p, names))
    ensures WellFormed(Cut(tree, p)) && Pruned(tree, p, Cut(tree, p))
  {
    CutHangs(tree, p);
  }

  lemma LeafAlone(tree: Tree, p: Path)
    requires WellFormed(tree) && p in tree && tree[p].Leaf?
    ensures Under(tree, p) == {p}
  {
    forall q | q in tree && p <= q ensures q == p {
      PrefixCases(p, q);
      assert q[..|p|] == p;
    }
  }

  lemma CutHangs(tree: Tree, p: Path)
    requires WellFormed(tree)
    ensures WellFormed(Cut(tree, p))
  {
    var t := Cut(tree, p);
    forall q, k | q in t && 0 < k < |q| ensures q[..k] in t && t[q[..k]].Dir? {
      assert p <= q[..k] ==> p <= q;
    }
  }

  lemma FitsChild(tree: Tree, p: Path, c: string, t: Tree, device: nat, uid: nat, room: int)
    requires Fits(tree, p, device, uid, room) && Under(t, p + [c]) == Under(tree, p + [c])
    requires forall q :: q in t ==> q in tree && t[q] == tree[q]
    ensures Fits(t, p + [c], device, uid, room - 1)
  {
    forall q | q in t && p + [c] <= q
      ensures t[q].Device() == device && t[q].uid == uid && (t[q].Dir? ==> |q| - |p + [c]| <= room - 1)
    {
      assert q in Under(t, p + [c]);
      assert p <= q;
    }
  }

  // ---- a moved tree needs the same budget ----

  function Carried(s: set<Path>, src: Path, dst: Path): (t: set<Path>) {
    set q | q in s && src <= q :: dst + q[|src|..]
  }

  lemma {:induction false} CarriedSize(s: set<Path>, src: Path, dst: Path)
    requires forall q :: q in s ==> src <= q
    ensures |Carried(s, src, dst)| == |s|
    decreases |s|
  {
    if s != {} {
      var q :| q in s;
      var rest := s - {q};
      CarriedSize(rest, src, dst);
      var moved := dst + q[|src|..];
      assert Carried(s, src, dst) == Carried(rest, src, dst) + {moved};
      if moved in Carried(rest, src, dst) {
        var p :| p in rest && src <= p && dst + p[|src|..] == moved;
        assert p[|src|..] == moved[|dst|..] == q[|src|..];
        PrefixSplit(src, p);
        PrefixSplit(src, q);
        assert false;
      }
    }
  }

  lemma MoveEnough(tree: Tree, src: Path, dst: Path, device: nat, uid: nat)
    requires Enough(tree, src, device, uid, 0, 0)
    ensures Enough(Move(tree, src, dst), dst, device, uid, 0, 0)
  {
    var t := Move(tree, src, dst);
    CarriedSize(Under(tree, src), src, dst);
    forall r | r in Under(t, dst) ensures r in Carried(Under(tree, src), src, dst) {
      var q := src + r[|dst|..];
      assert q[|src|..] == r[|dst|..];
      PrefixSplit(dst, r);
    }
    forall r | r in Carried(Under(tree, src), src, dst) ensures r in Under(t, dst) {
      var q :| q in Under(tree, src) && r == dst + q[|src|..];
      assert r[|dst|..] == q[|src|..];
      PrefixSplit(src, q);
    }
    assert Under(t, dst) == Carried(Under(tree, src), src, dst);
    forall r | r in t && dst <= r
      ensures t[r].Device() == device && t[r].uid == uid && (t[r].Dir? ==> |r| - |dst| <= MAX_DEPTH)
    {
      assert src + r[|dst|..] in tree;
    }
  }

  // ---- how many entries there are of a kind ----

  ghost function Places(tree: Tree, n: Node): set<Path> {
    set p | p in tree && tree[p] == n
  }

  ghost function Copies(tree: Tree, n: Node): nat {
    |Places(tree, n)|
  }

  ghost function PlacesBelow(tree: Tree, n: Node, src: Path): (s: set<Path>)
    ensures forall p :: p in s ==> src <= p
  {
    set p | p in tree && tree[p] == n && src <= p
  }

  ghost function PlacesBeside(tree: Tree, n: Node, src: Path, dst: Path): (s: set<Path>) {
    set p | p in tree && tree[p] == n && !(src <= p) && !(dst <= p)
  }

  /** A rename carries every entry along; it loses exactly the empty directory it replaces, if there is one. */
  lemma CopiesMoved(tree: Tree, src: Path, dst: Path, n: Node)
    requires WellFormed(tree) && CanMove(tree, src, dst) && Apart(src, dst)
    ensures Copies(Move(tree, src, dst), n) == Copies(tree, n) - (if dst in tree && tree[dst] == n then 1 else 0)
  {
    PlacesSplit(tree, src, dst, n);
    MovedPlaces(tree, src, dst, n);
    hide Move, Carried, Places, PlacesBelow, PlacesBeside, CanMove, WellFormed;
    var below, beside := PlacesBelow(tree, n, src), PlacesBeside(tree, n, src, dst);
    CarriedSize(below, src, dst);
    BesideCarried(tree, src, dst, n);
  }

  lemma BesideCarried(tree: Tree, src: Path, dst: Path, n: Node)
    ensures PlacesBeside(tree, n, src, dst) !! Carried(PlacesBelow(tree, n, src), src, dst)
  {}

  lemma PlacesSplit(tree: Tree, src: Path, dst: Path, n: Node)
    requires WellFormed(tree) && CanMove(tree, src, dst) && Apart(src, dst)
    ensures var gone := if dst in tree && tree[dst] == n then {dst} else {};
            && Places(tree, n) == PlacesBeside(tree, n, src, dst) + PlacesBelow(tree, n, src) + gone
            && PlacesBeside(tree, n, src, dst) !! PlacesBelow(tree, n, src)
            && gone !! PlacesBeside(tree, n, src, dst) + PlacesBelow(tree, n, src)
  {
    forall p | p in tree && dst <= p ensures p == dst {
      if dst !in tree { AbsentBelow(tree, dst, p); }
    }
    hide WellFormed;
  }

  lemma MovedPlaces(tree: Tree, src: Path, dst: Path, n: Node)
    ensures Places(Move(tree, src, dst), n)
         == PlacesBeside(tree, n, src, dst) + Carried(PlacesBelow(tree, n, src), src, dst)
  {
    var below, t := PlacesBelow(tree, n, src), Move(tree, src, dst);
    forall r ensures r in Carried(below, src, dst) <==> dst <= r && r in t && t[r] == n {
      if dst <= r && r in t && t[r] == n {
        var q := src + r[|dst|..];
        assert q[|src|..] == r[|dst|..];
        PrefixSplit(dst, r);
        assert q in below;
      }
      if r in Carried(below, src, dst) {
        var q :| q in below && r == dst + q[|src|..];
        assert r[|dst|..] == q[|src|..];
        PrefixSplit(src, q);
      }
    }
  }

  /** Removing only entries of this owner and device leaves all others. */
  lemma CopiesKept(before: Tree, tree: Tree, device: nat, uid: nat, n: Node)
    requires OwnGone(before, tree, device, uid) && forall q :: q in tree ==> q in before && tree[q] == before[q]
    requires n.Device() != device || n.uid != uid
    ensures Copies(tree, n) == Copies(before, n)
  {
    assert Places(tree, n) == Places(before, n);
  }

  /** Every entry that has gone was on the device and of the owner. */
  ghost predicate OwnGone(before: Tree, tree: Tree, device: nat, uid: nat) {
    forall q :: q in before && q !in tree ==> before[q].Device() == device && before[q].uid == uid
  }

  lemma NoneGone(tree: Tree, device: nat, uid: nat)
    ensures OwnGone(tree, tree, device, uid)
  {}

  /** No directory that is gone was more than `room` levels below `p`. */
  ghost predicate ShallowGone(before: Tree, tree: Tree, p: Path, room: int) {
    forall q :: q in before && q !in tree && before[q].Dir? ==> |q| - |p| <= room
  }

  lemma ShallowChain(before: Tree, now: Tree, tree: Tree, p: Path, c: string, room: int)
    requires ShallowGone(before, now, p, room) && ShallowGone(now, tree, p + [c], room - 1)
    requires forall q :: q in now ==> q in before && now[q] == before[q]
    ensures ShallowGone(before, tree, p, room)
  {}

  /** Whatever was removed to the end was within depth, budget, device and owner. */
  lemma FinishedFits(before: Tree, p: Path, device: nat, uid: nat, depth: nat, entries: nat)
    requires OwnGone(before, Cut(before, p), device, uid) && ShallowGone(before, Cut(before, p), p, MAX_DEPTH - depth)
    requires entries + |Under(before, p)| - 1 <= MAX_ENTRIES && depth <= MAX_DEPTH
    ensures Enough(before, p, device, uid, depth, entries)
  {}

  lemma OwnGoneChain(a: Tree, b: Tree, c: Tree, device: nat, uid: nat)
    requires OwnGone(a, b, device, uid) && OwnGone(b, c, device, uid) && forall q :: q in b ==> q in a && b[q] == a[q]
    ensures OwnGone(a, c, device, uid)
  {}

  datatype Removal = Done | Errored | Stopped

  class Remover {
    var tree: Tree
    var entries: nat
    /** No crash and no deadline interrupts this attempt. */
    var steady: bool
    const uid: nat

    constructor (tree: Tree, steady: bool, uid: nat)
      ensures this.tree == tree && this.steady == steady && this.uid == uid && entries == 0
    {
      this.tree, this.steady, this.uid := tree, steady, uid;
      entries := 0;
    }

    /** One unlink or rmdir, unless the attempt is cut off before it. */
    method Unlink(p: Path) returns (r: Removal)
      requires p in tree
      modifies `tree
      ensures r.Done? || r.Stopped?
      ensures tree == if r.Done? then Cut(old(tree), p) else old(tree)
      ensures steady ==> r.Done?
    {
      var cut: bool := *;
      if !steady && cut { return Stopped; }
      tree := Cut(tree, p);
      r := Done;
    }

    /** The entry is on the expected device, has the expected owner, and the budget lasts. */
    method Admit(p: Path, device: nat) returns (ok: bool)
      requires p in tree
      modifies `entries
      ensures entries == old(entries) + 1
      ensures ok ==> entries <= MAX_ENTRIES && tree[p].Device() == device && tree[p].uid == uid
      ensures steady && entries <= MAX_ENTRIES && tree[p].Device() == device && tree[p].uid == uid ==> ok
    {
      var late: bool := *;
      entries := entries + 1;
      ok := entries <= MAX_ENTRIES && (steady || !late) && tree[p].Device() == device && tree[p].uid == uid;
    }

    /** `_remove_tree_at`, with the entries of a directory visited in any order. */
    method RemoveTree(p: Path, device: nat, depth: nat) returns (r: Removal)
      requires WellFormed(tree) && p in tree && tree[p].Dir?
      modifies `tree, `entries
      ensures WellFormed(tree) && Pruned(old(tree), p, tree) && OwnGone(old(tree), tree, device, uid)
      ensures r.Done? ==> tree == Cut(old(tree), p) && entries == old(entries) + |Under(old(tree), p)| - 1
      ensures r.Done? ==> entries <= MAX_ENTRIES && Enough(old(tree), p, device, uid, depth, old(entries))
      ensures steady && Enough(old(tree), p, device, uid, depth, old(entries)) ==> r.Done?
      ensures steady ==> !r.Stopped?
      ensures ShallowGone(old(tree), tree, p, MAX_DEPTH - depth)
      decreases MAX_DEPTH + 1 - depth, 2
    {
      var late: bool := *;
      if depth > MAX_DEPTH || entries > MAX_ENTRIES || (!steady && late) { return Errored; }
      if tree[p].Device() != device || tree[p].uid != uid { return Errored; }
      r := RemoveBelow(p, device, depth);
      if r.Done? {
        r := Unlink(p);
        if r.Done? { FinishedFits(old(tree), p, device, uid, depth, old(entries)); }
      }
    }

    method RemoveBelow(p: Path, device: nat, depth: nat) returns (r: Removal)
      requires WellFormed(tree) && p in tree && depth <= MAX_DEPTH && entries <= MAX_ENTRIES
      modifies `tree, `entries
      ensures WellFormed(tree) && WellFormed(Cut(old(tree), p))
      ensures Pruned(old(tree), p, tree) && OwnGone(old(tree), tree, device, uid)
      ensures r.Done? ==> p in tree && Cut(tree, p) == Cut(old(tree), p) && forall q :: q in tree && p <= q ==> q == p
      ensures r.Done? ==> entries == old(entries) + |Under(old(tree), p)| - 1 <= MAX_ENTRIES
      ensures steady && Enough(old(tree), p, device, uid, depth, old(entries)) ==> r.Done?
      ensures steady ==> !r.Stopped?
      ensures ShallowGone(old(tree), tree, p, MAX_DEPTH - depth)
      decreases MAX_DEPTH + 1 - depth, 1
    {
      hide Names, Remaining, Removed, Under, Cut, WellFormed, Fits, Pruned, Through, OwnGone;
      ghost var before := tree;
      var names := Names(tree, p);
      RemainingAll(tree, p);
      RemainingNone(tree, p);
      NoneGone(tree, device, uid);
      var todo := names;
      ghost var done: set<string> := {};
      while todo != {}
        invariant todo <= names && done == names - todo && entries <= MAX_ENTRIES
        invariant WellFormed(tree) && tree == Remaining(before, p, done) && OwnGone(before, tree, device, uid)
        invariant entries == old(entries) + |Removed(before, p, done)|
        invariant ShallowGone(before, tree, p, MAX_DEPTH - depth)
      {
        var c :| c in todo;
        NotYet(before, p, done, c);
        RemainingNext(before, p, done, c);
        if steady && Enough(before, p, device, uid, depth, old(entries)) {
          EnoughNext(before, p, done, c, device, uid, depth, old(entries));
        }
        ghost var now := tree;
        r := RemoveEntry(p, c, device, depth);
        OwnGoneChain(before, now, tree, device, uid);
        ShallowChain(before, now, tree, p, c, MAX_DEPTH - depth);
        if !r.Done? {
          PrunedPart(before, p, done, c, tree);
          Emptied(before, p, done);
          return;
        }
        todo := todo - {c};
        done := done + {c};
      }
      assert done == names;
      Emptied(before, p, names);
      r := Done;
    }

    method RemoveEntry(p: Path, c: string, device: nat, depth: nat) returns (r: Removal)
      requires WellFormed(tree) && p + [c] in tree && depth <= MAX_DEPTH
      modifies `tree, `entries
      ensures WellFormed(tree) && Pruned(old(tree), p + [c], tree) && OwnGone(old(tree), tree, device, uid)
      ensures r.Done? ==> tree == Cut(old(tree), p + [c]) && entries == old(entries) + |Under(old(tree), p + [c])|
      ensures r.Done? ==> entries <= MAX_ENTRIES
      ensures steady && Fits(old(tree), p + [c], device, uid, MAX_DEPTH - depth - 1)
                && old(entries) + |Under(old(tree), p + [c])| <= MAX_ENTRIES
              ==> r.Done?
      ensures steady ==> !r.Stopped?
      ensures ShallowGone(old(tree), tree, p + [c], MAX_DEPTH - depth - 1)
      decreases MAX_DEPTH + 1 - depth, 0
    {
      var q := p + [c];
      var ok := Admit(q, device);
      if !ok { return Errored; }
      if tree[q].Dir? {
        r := RemoveTree(q, device, depth + 1);
      } else {
        LeafAlone(tree, q);
        CutHangs(tree, q);
        r := Unlink(q);
      }
    }
  }
}
