/** Materialising a filtered source view: the copy is the source restricted to the include
    paths and their ancestors, and it is accepted exactly when that restriction is. */
module SourceView {
  import opened SourcePaths
  import opened Utf8

  const MAX_DIRECTORY_DEPTH := 64
  const MAX_RELATIVE_PATH_BYTES := 1_024
  const MAX_NAME_BYTES := 255

  datatype Node =
    | Folder(identity: nat)
    | File(content: seq<int>, executable: bool, links: nat)
    | Link
    | Special

  type Tree = map<Path, Node>

  ghost predicate WellFormed(source: Tree) {
    && (forall p :: p in source ==> p != [])
    && (forall p, k :: p in source && 0 < k < |p| ==> p[..k] in source && source[p[..k]].Folder?)
  }

  /** What the view holds at a path. */
  datatype Copy = CopiedFolder | CopiedFile(content: seq<int>, executable: bool)

  function CopyOf(n: Node): Copy {
    if n.File? then CopiedFile(n.content, n.executable) else CopiedFolder
  }

  datatype Entry = Entry(path: Path, copy: Copy)

  // ---- names ----

  /** The bytes of a path written with slashes. */
  function PathBytes(p: Path): nat {
    if p == [] then 0 else if |p| == 1 then TextBytes(p[0]) else PathBytes(p[..|p| - 1]) + 1 + TextBytes(p[|p| - 1])
  }

  /** The path as it is written. */
  function Joined(p: Path): string {
    if p == [] then "" else if |p| == 1 then p[0] else p[0] + ("/" + Joined(p[1..]))
  }

  predicate CanonicalName(s: string) {
    s != "" && s != "." && s != ".." && '/' !in s && 0 as char !in s
  }

  predicate NameOk(s: string) {
    CanonicalName(s) && TextBytes(s) <= MAX_NAME_BYTES
  }

  // ---- what may cross ----

  datatype Limits = Limits(maxFiles: nat, maxBytes: nat, workspace: nat)

  /** One entry has a usable name and is an ordinary directory or a single-link file. */
  predicate Allowed(source: Tree, limits: Limits, p: Path)
    requires p in source && p != []
  {
    && NameOk(p[|p| - 1]) && PathBytes(p) <= MAX_RELATIVE_PATH_BYTES
    && match source[p]
       case Folder(identity) => identity != limits.workspace
       case File(_, _, links) => links == 1
       case _ => false
  }

  /** One entry may be copied: allowed, and a directory not too deep. */
  predicate EntryOk(source: Tree, limits: Limits, p: Path) {
    p in source && p != [] && Allowed(source, limits, p) && (source[p].Folder? ==> |p| <= MAX_DIRECTORY_DEPTH)
  }

  function FileBytes(source: Tree, p: Path): nat {
    if p in source && source[p].File? then |source[p].content| else 0
  }

  /** The bytes of the files among some paths. */
  ghost function Size(source: Tree, s: set<Path>): nat {
    if s == {} then 0 else var p :| p in s; FileBytes(source, p) + Size(source, s - {p})
  }

  /** Some paths may all be copied together. */
  ghost predicate Within(source: Tree, limits: Limits, s: set<Path>) {
    && (forall p :: p in s ==> EntryOk(source, limits, p))
    && |s| <= limits.maxFiles && Size(source, s) <= limits.maxBytes
  }

  /** The include path, its ancestors and everything below it. */
  function Chosen(source: Tree, pick: Path): (s: set<Path>)
    ensures forall p :: p in s <==> p in source && Related(p, pick)
  {
    set p | p in source && Related(p, pick)
  }

  ghost function Selected(source: Tree, picks: set<Path>): (s: set<Path>)
    ensures forall p :: p in s <==> p in source && exists i :: i in picks && Related(p, i)
  {
    set p | p in source && exists i :: i in picks && Related(p, i)
  }

  ghost predicate Admissible(source: Tree, picks: set<Path>, limits: Limits) {
    (forall i :: i in picks ==> i in source) && Within(source, limits, Selected(source, picks))
  }

  /** The source restricted to some paths, as the view holds it. */
  ghost function Restriction(source: Tree, s: set<Path>): map<Path, Copy>
    requires forall p :: p in s ==> p in source
  {
    map p | p in s :: CopyOf(source[p])
  }

  // ---- in plain words ----

  lemma {:induction false} TextBytesSum(a: string, b: string)
    ensures TextBytes(a + b) == TextBytes(a) + TextBytes(b)
  {
    if a == "" {
      assert a + b == b;
    } else {
      assert (a + b)[1..] == a[1..] + b;
      TextBytesSum(a[1..], b);
    }
  }

  lemma {:induction false} JoinedBytes(p: Path)
    ensures PathBytes(p) == TextBytes(Joined(p))
    decreases |p|
  {
    if |p| > 1 {
      var last := p[|p| - 1];
      JoinedBytes(p[..|p| - 1]);
      JoinedLast(p);
      var front := Joined(p[..|p| - 1]);
      TextBytesSum(front, "/" + last);
      TextBytesSum("/", last);
    }
  }

  lemma {:induction false} JoinedLast(p: Path)
    requires |p| > 1
    ensures Joined(p) == Joined(p[..|p| - 1]) + ("/" + p[|p| - 1])
    decreases |p|
  {
    if |p| > 2 {
      JoinedLast(p[1..]);
      assert p[1..][..|p| - 2] == p[..|p| - 1][1..];
      assert p[1..][|p| - 2] == p[|p| - 1];
    }
  }

  /** A name that stands for itself in its directory. */
  predicate Plain(name: string) {
    name !in {"", ".", ".."} && forall i :: 0 <= i < |name| ==> name[i] != '/' && name[i] != 0 as char
  }

  /** What may cross: under a plain name of at most 255 bytes and a path of at most 1024, a directory at most 64 deep
      that is not the workspace, or a file with one name only. */
  lemma EntryOkMeans(source: Tree, limits: Limits, p: Path)
    ensures EntryOk(source, limits, p) <==>
              && p in source && p != [] && Plain(p[|p| - 1]) && TextBytes(p[|p| - 1]) <= 255
              && TextBytes(Joined(p)) <= 1_024
              && ((source[p].Folder? && source[p].identity != limits.workspace && |p| <= 64)
                  || (source[p].File? && source[p].links == 1))
  {
    JoinedBytes(p);
  }

  // ---- sizes ----

  lemma {:induction false} SizeRemove(source: Tree, s: set<Path>, p: Path)
    requires p in s
    ensures Size(source, s) == FileBytes(source, p) + Size(source, s - {p})
    decreases |s|
  {
    var q :| q in s && Size(source, s) == FileBytes(source, q) + Size(source, s - {q});
    if q != p {
      SizeRemove(source, s - {q}, p);
      SizeRemove(source, s - {p}, q);
      assert s - {q} - {p} == s - {p} - {q};
    }
  }

  lemma SizeAdd(source: Tree, s: set<Path>, p: Path)
    requires p !in s
    ensures Size(source, s + {p}) == Size(source, s) + FileBytes(source, p)
  {
    SizeRemove(source, s + {p}, p);
    assert s + {p} - {p} == s;
  }

  lemma {:induction false} SizeGrows(source: Tree, a: set<Path>, b: set<Path>)
    requires a <= b
    ensures Size(source, a) <= Size(source, b) && |a| <= |b|
    decreases |b|
  {
    if a != {} {
      var p :| p in a;
      SizeRemove(source, a, p);
      SizeRemove(source, b, p);
      SizeGrows(source, a - {p}, b - {p});
    }
  }

  lemma WithinLess(source: Tree, limits: Limits, a: set<Path>, b: set<Path>)
    requires a <= b && Within(source, limits, b)
    ensures Within(source, limits, a)
  {
    SizeGrows(source, a, b);
  }

  // ---- the copy in progress ----

  /** Every copied path comes strictly before `p`. */
  ghost predicate AllBefore(done: set<Path>, p: Path) {
    forall e :: e in done ==> PathBelow(e, p)
  }

  ghost predicate InOrder(manifest: seq<Entry>) {
    forall i, j :: 0 <= i < j < |manifest| ==> PathBelow(manifest[i].path, manifest[j].path)
  }

  function PathsOf(manifest: seq<Entry>): (s: set<Path>)
    ensures forall p :: p in s <==> exists i :: 0 <= i < |manifest| && manifest[i].path == p
  {
    set i | 0 <= i < |manifest| :: manifest[i].path
  }

  /** The manifest lists exactly `done`, in order, with what was copied. */
  ghost predicate Lists(source: Tree, done: set<Path>, manifest: seq<Entry>) {
    && InOrder(manifest) && PathsOf(manifest) == done
    && forall i :: 0 <= i < |manifest| ==>
                     manifest[i].path in source && manifest[i].copy == CopyOf(source[manifest[i].path])
  }

  lemma ListsNext(source: Tree, done: set<Path>, manifest: seq<Entry>, p: Path)
    requires Lists(source, done, manifest) && AllBefore(done, p) && p in source
    ensures Lists(source, done + {p}, manifest + [Entry(p, CopyOf(source[p]))])
  {
    var more := manifest + [Entry(p, CopyOf(source[p]))];
    assert forall i :: 0 <= i < |manifest| ==> manifest[i].path in PathsOf(manifest);
    forall q | q in done + {p} ensures q in PathsOf(more) {
      if q in done {
        var i :| 0 <= i < |manifest| && manifest[i].path == q;
        assert more[i].path == q;
      } else {
        assert more[|manifest|].path == q;
      }
    }
    forall q | q in PathsOf(more) ensures q in done + {p} {
      var i :| 0 <= i < |more| && more[i].path == q;
      assert i < |manifest| ==> manifest[i].path == q;
    }
    assert PathsOf(more) == done + {p};
  }
}
