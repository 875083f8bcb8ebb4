/** The state root as a tree of identity-stamped directories, and what rename and
    removal do to it. */
module RecoveryTree {
  type Path = seq<string>

  /** What tells one directory from another: where it is stored and its ownership token. */
  datatype Stamp = Stamp(device: nat, inode: nat, token: string)

  datatype Node =
    | Dir(stamp: Stamp, uid: nat)
    | Leaf(device: nat, uid: nat)
  {
    function Device(): nat { if Dir? then stamp.device else device }
  }

  type Tree = map<Path, Node>

  /** Every entry hangs from directories, and no directory is entered under two names. */
  ghost predicate WellFormed(tree: Tree) {
    && (forall p :: p in tree ==> p != [])
    && (forall p, k :: p in tree && 0 < k < |p| ==> p[..k] in tree && tree[p[..k]].Dir?)
    && OneName(tree)
  }

  ghost predicate OneName(tree: Tree) {
    forall p, q :: p in tree && q in tree && tree[p].Dir? && tree[q].Dir? && tree[p].stamp == tree[q].stamp ==> p == q
  }

  predicate IsDir(tree: Tree, p: Path, stamp: Stamp) {
    p in tree && tree[p].Dir? && tree[p].stamp == stamp
  }

  /** Nothing in the tree carries the stamp. */
  ghost predicate NoTrace(tree: Tree, stamp: Stamp) {
    forall p :: p in tree ==> !IsDir(tree, p, stamp)
  }

  // ---- looking a path up ----

  datatype Found = Absent | Obstructed | Directory(stamp: Stamp)

  /** Opening a directory by path: a missing component is absence, a non-directory on the way is an error. */
  function Find(tree: Tree, p: Path): Found {
    if p in tree then (if tree[p].Dir? then Directory(tree[p].stamp) else Obstructed)
    else if exists k :: 0 < k < |p| && p[..k] in tree && tree[p[..k]].Leaf? then Obstructed
    else Absent
  }

  // ---- cutting a subtree ----

  function Under(tree: Tree, p: Path): (s: set<Path>)
    ensures forall q :: q in s <==> q in tree && p <= q
  {
    set q | q in tree && p <= q
  }

  function Cut(tree: Tree, p: Path): (t: Tree)
    ensures forall q :: q in t <==> q in tree && !(p <= q)
    ensures forall q :: q in t ==> t[q] == tree[q]
  {
    map q | q in tree && !(p <= q) :: tree[q]
  }

  /** `t` is `tree` with some entries below `p` missing. */
  ghost predicate Pruned(tree: Tree, p: Path, t: Tree) {
    && (forall q :: q in t ==> q in tree && t[q] == tree[q])
    && (forall q :: q in tree && !(p <= q) ==> q in t)
  }

  lemma PrunedSelf(tree: Tree, p: Path)
    ensures Pruned(tree, p, tree)
  {}

  lemma PrefixOfPrefix(p: Path, q: Path, r: Path)
    requires p <= r && q <= r && |p| <= |q|
    ensures p <= q
  {
    assert forall i :: 0 <= i < |p| ==> p[i] == r[i] == q[i];
  }

  lemma PrefixSplit(p: Path, q: Path)
    requires p <= q
    ensures q == p + q[|p|..]
  {}

  lemma PrefixCases(p: Path, q: Path)
    requires p <= q
    ensures p == q || p < q
  {
    assert q[..|p|] == p;
    assert |p| == |q| ==> q[..|p|] == q;
  }

  /** In a well-formed tree an absent path has nothing below it. */
  lemma AbsentBelow(tree: Tree, p: Path, q: Path)
    requires WellFormed(tree) && p != [] && p !in tree && p <= q
    ensures q !in tree
  {
    assert q[..|p|] == p;
    if |p| == |q| {
      assert q == p;
    }
  }

  // ---- moving a subtree ----

  /** What a successful rename leaves: the subtree at `src` now hangs at `dst`. */
  function Move(tree: Tree, src: Path, dst: Path): (t: Tree)
    ensures forall r :: r in t <==> (r in tree && !(src <= r) && !(dst <= r)) || (dst <= r && src + r[|dst|..] in tree)
    ensures forall r :: r in t ==> t[r] == if dst <= r then tree[src + r[|dst|..]] else tree[r]
  {
    var kept := set q | q in tree && !(src <= q) && !(dst <= q);
    var moved := set q | q in tree && src <= q :: dst + q[|src|..];
    MovedNames(tree, src, dst, moved);
    map r | r in kept + moved :: if dst <= r then tree[src + r[|dst|..]] else tree[r]
  }

  lemma MovedNames(tree: Tree, src: Path, dst: Path, moved: set<Path>)
    requires moved == set q | q in tree && src <= q :: dst + q[|src|..]
    ensures forall r :: r in moved <==> dst <= r && src + r[|dst|..] in tree
  {
    forall r | r in moved ensures dst <= r && src + r[|dst|..] in tree {
      var q :| q in tree && src <= q && r == dst + q[|src|..];
      assert r[|dst|..] == q[|src|..];
      PrefixSplit(src, q);
    }
    forall r | dst <= r && src + r[|dst|..] in tree ensures r in moved {
      var q := src + r[|dst|..];
      assert q[|src|..] == r[|dst|..];
      PrefixSplit(dst, r);
    }
  }

  lemma MoveTop(tree: Tree, src: Path, dst: Path)
    requires src in tree
    ensures dst in Move(tree, src, dst) && Move(tree, src, dst)[dst] == tree[src]
  {
    assert src + dst[|dst|..] == src;
  }

  predicate Apart(p: Path, q: Path) {
    !(p <= q) && !(q <= p)
  }

  /** `rename` onto a missing name or an empty directory. */
  predicate CanMove(tree: Tree, src: Path, dst: Path) {
    && src in tree && |dst| > 1 && dst[..|dst| - 1] in tree && tree[dst[..|dst| - 1]].Dir?
    && (dst in tree ==> tree[dst].Dir? && forall q :: q in tree && dst <= q ==> q == dst)
  }

  lemma MoveOneName(tree: Tree, src: Path, dst: Path)
    requires OneName(tree)
    ensures OneName(Move(tree, src, dst))
  {
    var t := Move(tree, src, dst);
    forall p, q | p in t && q in t && t[p].Dir? && t[q].Dir? && t[p].stamp == t[q].stamp ensures p == q {
      var a := if dst <= p then src + p[|dst|..] else p;
      var b := if dst <= q then src + q[|dst|..] else q;
      assert a == b;
      if dst <= p {
        PrefixSplit(dst, p);
        assert p[|dst|..] == a[|src|..];
      }
      if dst <= q {
        PrefixSplit(dst, q);
        assert q[|dst|..] == b[|src|..];
      }
    }
  }

  lemma MoveHangs(tree: Tree, src: Path, dst: Path, p: Path, k: nat)
    requires WellFormed(tree) && CanMove(tree, src, dst) && Apart(src, dst) && src != []
    requires p in Move(tree, src, dst) && 0 < k < |p|
    requires forall j :: 0 < j < |dst| - 1 ==> dst[..j] in tree && tree[dst[..j]].Dir?
    ensures p[..k] in Move(tree, src, dst) && Move(tree, src, dst)[p[..k]].Dir?
  {
    hide Move;
    if dst <= p {
      var q := src + p[|dst|..];
      if k >= |dst| {
        assert dst <= p[..k];
        assert src + p[..k][|dst|..] == q[..|src| + k - |dst|];
      } else {
        assert p[..k] == dst[..k];
        assert dst[..k] in tree && tree[dst[..k]].Dir?;
        assert src <= dst[..k] ==> src <= dst;
      }
    } else {
      assert src <= p[..k] ==> src <= p;
      assert dst <= p[..k] ==> dst <= p;
    }
  }

  lemma MoveWellFormed(tree: Tree, src: Path, dst: Path)
    requires WellFormed(tree) && CanMove(tree, src, dst) && Apart(src, dst) && src != []
    ensures WellFormed(Move(tree, src, dst))
  {
    var t := Move(tree, src, dst);
    MoveOneName(tree, src, dst);
    var parent := dst[..|dst| - 1];
    forall j | 0 < j < |dst| - 1 ensures dst[..j] in tree && tree[dst[..j]].Dir? {
      assert parent[..j] == dst[..j];
    }
    forall p, k | p in t && 0 < k < |p| ensures p[..k] in t && t[p[..k]].Dir? {
      MoveHangs(tree, src, dst, p, k);
    }
  }
}
