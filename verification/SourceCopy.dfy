/** The materialiser: one recursive pass that creates directories and files, counts entries and
    bytes, and records the manifest as it goes. */
module SourceCopy {
  import opened Options
  import opened Ordered
  import opened SourcePaths
  import opened SourceView

  function Under(source: Tree, p: Path): (s: set<Path>)
    ensures forall q :: q in s <==> q in source && p <= q
  {
    set q | q in source && p <= q
  }

  function Inside(source: Tree, p: Path): (s: set<Path>)
    ensures forall q :: q in s <==> q in source && p < q
  {
    set q | q in source && p < q
  }

  /** Names of the entries directly in a directory. */
  function Names(source: Tree, p: Path): (s: set<string>)
    ensures forall c :: c in s <==> p + [c] in source
  {
    var s := set q | q in source && |q| == |p| + 1 && p <= q :: q[|p|];
    assert forall c :: c in s <==> p + [c] in source by {
      forall c | p + [c] in source ensures c in s { assert (p + [c])[|p|] == c; }
      forall c | c in s ensures p + [c] in source {
        var q :| q in source && |q| == |p| + 1 && p <= q && q[|p|] == c;
        assert q == p + [c];
      }
    }
    s
  }

  /** Paths inside `p` through one of the first `n` names. */
  function Through(source: Tree, p: Path, names: seq<string>, n: nat): (s: set<Path>)
    requires n <= |names|
    ensures forall q :: q in s <==> q in source && p < q && q[|p|] in names[..n]
  {
    set q | q in source && p < q && q[|p|] in names[..n]
  }

  lemma ThroughNext(source: Tree, p: Path, names: seq<string>, n: nat)
    requires n < |names|
    ensures Through(source, p, names, n + 1) == Through(source, p, names, n) + Under(source, p + [names[n]])
  {
    hide Through, Under;
    assert names[..n + 1] == names[..n] + [names[n]];
    forall q | q in source
      ensures q in Through(source, p, names, n + 1) <==>
                q in Through(source, p, names, n) || q in Under(source, p + [names[n]])
    {
      assert p + [names[n]] <= q <==> p < q && q[|p|] == names[n];
    }
  }

  lemma ThroughAll(source: Tree, p: Path, names: seq<string>)
    requires WellFormed(source) && forall c :: c in names <==> c in Names(source, p)
    ensures Through(source, p, names, |names|) == Inside(source, p)
  {
    hide Through, Inside, Names;
    assert names[..|names|] == names;
    forall q | q in source && p < q ensures q[|p|] in names {
      assert q[..|p| + 1] == p + [q[|p|]];
      if |q| == |p| + 1 { assert q == q[..|p| + 1]; }
    }
  }

  /** Everything copied so far comes up to `p`, and nothing inside `p` is copied yet. */
  ghost predicate UpTo(done: set<Path>, p: Path) {
    p in done && forall e :: e in done ==> e == p || PathBelow(e, p)
  }

  /** The next name of a directory comes after everything copied under the earlier ones. */
  lemma NextAfter(source: Tree, done: set<Path>, p: Path, names: seq<string>, n: nat, e: Path)
    requires UpTo(done, p) && StrictlyAscending(names) && n < |names|
    requires e in done + Through(source, p, names, n)
    ensures PathBelow(e, p + [names[n]])
  {
    var c := p + [names[n]];
    assert p < c;
    PrefixBelow(p, c);
    if e in done {
      if e != p { PathTransitive(e, p, c); }
    } else {
      SiblingBelow(p, e, names[n]);
    }
  }

  lemma {:induction false} SiblingBelow(p: Path, e: Path, name: string)
    requires p < e && Below(e[|p|], name)
    ensures PathBelow(e, p + [name])
  {
    if p != [] {
      assert p[1..] < e[1..] && e[1..][|p| - 1] == e[|p|];
      SiblingBelow(p[1..], e[1..], name);
      assert (p + [name])[1..] == p[1..] + [name];
    }
  }

  // ---- the state of the copy ----

  ghost predicate ClosedUp(done: set<Path>) {
    forall p, k :: p in done && 0 < k < |p| ==> p[..k] in done
  }

  /** The view holds what the source does, and knows its directories. */
  ghost predicate Mirrors(source: Tree, view: map<Path, Copy>, directories: set<Path>) {
    && (forall p :: p in view ==> p in source && view[p] == CopyOf(source[p]))
    && (forall p :: p in directories <==> p in view && p in source && source[p].Folder?)
  }

  /** `done` is listed and counted, and all of it may be copied. */
  ghost predicate Tallied(source: Tree, limits: Limits, done: set<Path>, manifest: seq<Entry>, entries: nat,
                          bytes: nat) {
    && Lists(source, done, manifest) && ClosedUp(done)
    && entries == |done| && bytes == Size(source, done) && Within(source, limits, done)
  }

  ghost predicate Copied(source: Tree, limits: Limits, view: map<Path, Copy>, directories: set<Path>,
                         manifest: seq<Entry>, entries: nat, bytes: nat) {
    Mirrors(source, view, directories) && Tallied(source, limits, view.Keys, manifest, entries, bytes)
  }

  lemma TalliedNext(source: Tree, limits: Limits, done: set<Path>, manifest: seq<Entry>, entries: nat, bytes: nat,
                    p: Path)
    requires Tallied(source, limits, done, manifest, entries, bytes)
    requires p in source && p !in done && AllBefore(done, p) && EntryOk(source, limits, p)
    requires (|p| > 1 ==> p[..|p| - 1] in done)
    requires entries < limits.maxFiles && bytes + FileBytes(source, p) <= limits.maxBytes
    ensures Tallied(source, limits, done + {p}, manifest + [Entry(p, CopyOf(source[p]))], entries + 1,
                    bytes + FileBytes(source, p))
  {
    hide EntryOk, Lists, AllBefore, ClosedUp, Size, FileBytes, CopyOf;
    SizeAdd(source, done, p);
    ListsNext(source, done, manifest, p);
    ClosedNext(done, p);
  }

  lemma CopiedNext(source: Tree, limits: Limits, view: map<Path, Copy>, directories: set<Path>, manifest: seq<Entry>,
                   entries: nat, bytes: nat, p: Path)
    requires Copied(source, limits, view, directories, manifest, entries, bytes)
    requires p in source && p !in view && AllBefore(view.Keys, p) && EntryOk(source, limits, p)
    requires (|p| > 1 ==> p[..|p| - 1] in view)
    requires entries < limits.maxFiles && bytes + FileBytes(source, p) <= limits.maxBytes
    ensures Copied(source, limits, view[p := CopyOf(source[p])], if source[p].Folder? then directories + {p}
                   else directories,
                   manifest + [Entry(p, CopyOf(source[p]))], entries + 1, bytes + FileBytes(source, p))
  {
    hide EntryOk, AllBefore, FileBytes, CopyOf, Tallied;
    TalliedNext(source, limits, view.Keys, manifest, entries, bytes, p);
    assert view[p := CopyOf(source[p])].Keys == view.Keys + {p};
  }

  lemma ClosedNext(done: set<Path>, p: Path)
    requires ClosedUp(done) && (|p| > 1 ==> p[..|p| - 1] in done)
    ensures ClosedUp(done + {p})
  {
    forall q, k | q in done + {p} && 0 < k < |q| ensures q[..k] in done + {p} {
      if q == p && k < |p| - 1 { assert p[..|p| - 1][..k] == p[..k]; }
    }
  }

  /** `p` is next: after everything copied, its directory copied, nothing of it copied. */
  ghost predicate Fresh(source: Tree, done: set<Path>, p: Path) {
    AllBefore(done, p) && done !! Under(source, p) && (|p| > 1 ==> p[..|p| - 1] in done)
  }

  /** What is copied once the first `n` names of `p` are. */
  ghost function Passed(source: Tree, done: set<Path>, p: Path, names: seq<string>, n: nat): set<Path>
    requires n <= |names|
  {
    done + Through(source, p, names, n)
  }

  lemma ThroughNone(source: Tree, p: Path, names: seq<string>)
    ensures forall done :: Passed(source, done, p, names, 0) == done
  {}

  lemma PassedAll(source: Tree, done: set<Path>, p: Path, names: seq<string>)
    requires WellFormed(source) && forall c :: c in names <==> c in Names(source, p)
    ensures Passed(source, done, p, names, |names|) == done + Inside(source, p)
  {
    ThroughAll(source, p, names);
  }

  lemma ThroughSome(source: Tree, limits: Limits, done: set<Path>, p: Path, names: seq<string>, n: nat)
    requires n < |names| && WellFormed(source) && forall c :: c in names <==> c in Names(source, p)
    ensures Passed(source, done, p, names, n + 1) == Passed(source, done, p, names, n) + Under(source, p + [names[n]])
    ensures Within(source, limits, done + Inside(source, p)) ==>
              Within(source, limits, Passed(source, done, p, names, n) + Under(source, p + [names[n]]))
  {
    hide Within, Through, Inside, Under, Names;
    ThroughNext(source, p, names, n);
    var some := Passed(source, done, p, names, n) + Under(source, p + [names[n]]);
    forall q | q in some ensures q in done + Inside(source, p) {
      assert p + [names[n]] <= q ==> p < q;
    }
    if Within(source, limits, done + Inside(source, p)) { WithinLess(source, limits, some, done + Inside(source, p)); }
  }

  lemma NextFresh(source: Tree, done: set<Path>, p: Path, names: seq<string>, n: nat)
    requires n < |names| && StrictlyAscending(names) && UpTo(done, p) && done !! Inside(source, p) && WellFormed(source)
    requires forall c :: c in names <==> c in Names(source, p)
    ensures p + [names[n]] in source && Fresh(source, Passed(source, done, p, names, n), p + [names[n]])
  {
    hide WellFormed, Names;
    var c, all := p + [names[n]], done + Through(source, p, names, n);
    assert names[n] in names;
    forall e | e in all ensures PathBelow(e, c) { NextAfter(source, done, p, names, n, e); }
    forall e | e in all && c <= e ensures false {
      PathBelowNotPrefix(c, e);
      NextAfter(source, done, p, names, n, e);
    }
    assert c[..|c| - 1] == p;
  }

  lemma PathBelowNotPrefix(c: Path, e: Path)
    requires c <= e
    ensures !PathBelow(e, c)
  {
    if PathBelow(e, c) {
      if c != e { PrefixBelow(c, e); PathTransitive(c, e, c); }
      PathIrreflexive(c);
    }
  }

  /** A directory with more names than the whole budget cannot fit. */
  lemma ManyNames(source: Tree, limits: Limits, done: set<Path>, p: Path, names: seq<string>)
    requires names == Ascending(Names(source, p))
    ensures |names| > limits.maxFiles ==> !Within(source, limits, done + Inside(source, p))
    ensures StrictlyAscending(names) && forall c :: c in names <==> c in Names(source, p)
  {
    NamesInside(source, p, names, |names|);
    SizeGrows(source, Inside(source, p), done + Inside(source, p));
  }

  lemma UnderSplit(source: Tree, p: Path)
    requires WellFormed(source) && p in source
    ensures Under(source, p) == {p} + Inside(source, p)
    ensures !source[p].Folder? ==> Inside(source, p) == {}
  {
    forall q | q in source && p <= q ensures q == p || p < q {
      if |p| == |q| { assert p == q[..|p|] == q; }
    }
    forall q | q in source && p < q ensures source[p].Folder? { assert q[..|p|] == p; }
  }

  lemma AllowedMeans(source: Tree, limits: Limits, p: Path)
    requires p in source && p != []
    ensures Allowed(source, limits, p) ==> source[p].File? || source[p].Folder?
  {}

  /** What an entry about to be copied can rely on, and why a refusal means the whole does not fit. */
  lemma EntryFacts(source: Tree, limits: Limits, done: set<Path>, p: Path)
    requires WellFormed(source) && p in source && Fresh(source, done, p)
    ensures p != [] && p !in done && AllBefore(done, p) && (|p| > 1 ==> p[..|p| - 1] in done)
    ensures Under(source, p) == {p} + Inside(source, p) && (!source[p].Folder? ==> Inside(source, p) == {})
    ensures Within(source, limits, done + Under(source, p)) ==>
              EntryOk(source, limits, p) && |done| < limits.maxFiles
              && Size(source, done) + FileBytes(source, p) <= limits.maxBytes
    ensures UpTo(done + {p}, p) && (done + {p}) !! Inside(source, p)
  {
    hide EntryOk, Size;
    UnderSplit(source, p);
    assert p in Under(source, p);
    if Within(source, limits, done + Under(source, p)) {
      WithinLess(source, limits, done + {p}, done + Under(source, p));
      SizeAdd(source, done, p);
    }
  }

  lemma {:induction false} NamesInside(source: Tree, p: Path, names: seq<string>, n: nat)
    requires n <= |names| && StrictlyAscending(names) && forall c :: c in names ==> p + [c] in source
    ensures |Inside(source, p)| >= n
  {
    NamesCount(p, names, n);
    var kids := set i | 0 <= i < n :: p + [names[i]];
    forall q | q in kids ensures q in Inside(source, p) {
      var i :| 0 <= i < n && q == p + [names[i]];
      assert names[i] in names && p < q;
    }
    SizeGrows(source, kids, Inside(source, p));
  }

  lemma {:induction false} NamesCount(p: Path, names: seq<string>, n: nat)
    requires n <= |names| && StrictlyAscending(names)
    ensures |set i | 0 <= i < n :: p + [names[i]]| == n
  {
    if n > 0 {
      NamesCount(p, names, n - 1);
      var some := set i | 0 <= i < n - 1 :: p + [names[i]];
      var last := p + [names[n - 1]];
      assert (set i | 0 <= i < n :: p + [names[i]]) == some + {last};
      if last in some {
        var i :| 0 <= i < n - 1 && p + [names[i]] == last;
        assert (p + [names[i]])[|p|] == last[|p|];
        BelowIrreflexive(names[i]);
      }
    }
  }

  // ---- one include path ----

  /** The path is still to come: after everything copied, and nothing of it copied. */
  ghost predicate Upcoming(source: Tree, done: set<Path>, pick: Path) {
    AllBefore(done, pick) && (forall e :: e in done ==> !(pick <= e)) && ClosedUp(done)
  }

  /** The first `n` directories on the way to a path. */
  ghost function Ancestors(pick: Path, n: nat): (s: set<Path>)
    requires n <= |pick|
    ensures forall q :: q in s <==> 0 < |q| <= n && q <= pick
  {
    var s := set k | 1 <= k <= n :: pick[..k];
    assert forall q :: q in s <==> 0 < |q| <= n && q <= pick by {
      forall q | 0 < |q| <= n && q <= pick ensures q in s { assert q == pick[..|q|]; }
    }
    s
  }

  lemma AncestorsNone(done: set<Path>, pick: Path)
    ensures done + Ancestors(pick, 0) == done
  {}

  lemma AncestorsNext(source: Tree, done: set<Path>, pick: Path, i: nat, keys: set<Path>)
    requires i + 1 < |pick| && pick[..i + 1] in keys
    requires keys == done + Ancestors(pick, i) || keys == done + Ancestors(pick, i) + {pick[..i + 1]}
    requires Upcoming(source, done + Ancestors(pick, i), pick) && (i > 0 ==> pick[..i] in done + Ancestors(pick, i))
    ensures keys == done + Ancestors(pick, i + 1) && Upcoming(source, keys, pick)
  {
    var a := pick[..i + 1];
    assert Ancestors(pick, i + 1) == Ancestors(pick, i) + {a} by {
      forall q | q in Ancestors(pick, i + 1) ensures q in Ancestors(pick, i) + {a} { assert q == pick[..|q|]; }
    }
    PrefixBelow(a, pick);
    assert a[..|a| - 1] == pick[..i];
    ClosedNext(done + Ancestors(pick, i), a);
  }

  /** A missing ancestor comes after everything copied. */
  lemma AncestorOk(source: Tree, limits: Limits, done: set<Path>, pick: Path, i: nat)
    requires i + 1 < |pick| && Upcoming(source, done, pick) && PathBytes(pick) <= MAX_RELATIVE_PATH_BYTES
    ensures pick[..i + 1] !in done ==> AllBefore(done, pick[..i + 1])
    ensures PathBytes(pick[..i + 1]) <= MAX_RELATIVE_PATH_BYTES
    ensures |pick[..i + 1]| > 1 ==> pick[..i + 1][..|pick[..i + 1]| - 1] == pick[..i]
    ensures pick[..i + 1][i] == pick[i]
  {
    hide ClosedUp;
    var a := pick[..i + 1];
    BytesGrow(pick, i + 1);
    if a !in done {
      forall e | e in done ensures PathBelow(e, a) {
        if a <= e { AboveThere(done, a, e); }
        if e <= pick {
          assert e < a;
          PrefixBelow(e, a);
        } else {
          PartedBelow(e, pick, e, a);
        }
      }
    }
  }

  lemma AboveThere(done: set<Path>, a: Path, e: Path)
    requires ClosedUp(done) && e in done && a != [] && a <= e
    ensures a in done
  {
    assert e[..|a|] == a;
    if |a| == |e| { assert e == a; }
  }

  lemma {:induction false} BytesGrow(p: Path, k: nat)
    requires 0 < k <= |p|
    ensures PathBytes(p[..k]) <= PathBytes(p)
  {
    if k < |p| {
      BytesGrow(p[..|p| - 1], k);
      assert p[..|p| - 1][..k] == p[..k];
    } else {
      assert p[..k] == p;
    }
  }

  /** When the whole path fits, each ancestor is an ordinary directory and there is room for it. */
  lemma PickFacts(source: Tree, limits: Limits, done: set<Path>, pick: Path, i: nat)
    requires WellFormed(source) && i + 1 < |pick|
    ensures pick in source && Within(source, limits, done + Chosen(source, pick)) ==>
              var a := pick[..i + 1];
              && a in source && source[a].Folder? && EntryOk(source, limits, a)
              && (a !in done + Ancestors(pick, i) ==> |done + Ancestors(pick, i)| < limits.maxFiles)
  {
    hide EntryOk, Size;
    if pick in source && Within(source, limits, done + Chosen(source, pick)) {
      var a := pick[..i + 1];
      var some := done + Ancestors(pick, i);
      assert a in Chosen(source, pick);
      forall q | q in some + {a} ensures q in done + Chosen(source, pick) {
        if q in Ancestors(pick, i) { assert q == pick[..|q|]; }
      }
      SizeGrows(source, some + {a}, done + Chosen(source, pick));
    }
  }

  /** With all ancestors in place the path itself is next. */
  lemma PickFresh(source: Tree, done: set<Path>, keys: set<Path>, pick: Path)
    requires WellFormed(source) && pick in source && pick != [] && keys == done + Ancestors(pick, |pick| - 1)
    requires Upcoming(source, keys, pick)
    requires |pick| > 1 ==> pick[..|pick| - 1] in keys
    ensures Fresh(source, keys, pick) && keys + Under(source, pick) == done + Chosen(source, pick)
  {
    forall q ensures q in Ancestors(pick, |pick| - 1) + Under(source, pick) <==> q in Chosen(source, pick) {
      assert q <= pick && |q| == |pick| ==> q == pick;
      if q in Ancestors(pick, |pick| - 1) { assert q == pick[..|q|]; }
    }
  }

  class CopyState {
    const source: Tree
    const limits: Limits
    var entries: nat
    var bytes: nat
    var manifest: seq<Entry>
    var directories: set<Path>
    var view: map<Path, Copy>

    ghost predicate Valid()
      reads this
    {
      WellFormed(source) && Copied(source, limits, view, directories, manifest, entries, bytes)
    }

    constructor (source: Tree, limits: Limits)
      requires WellFormed(source)
      ensures Valid() && this.source == source && this.limits == limits && view == map[] && manifest == []
    {
      this.source, this.limits := source, limits;
      entries, bytes, manifest, directories, view := 0, 0, [], {}, map[];
    }

    method ReserveEntry() returns (ok: bool)
      modifies `entries
      ensures ok <==> old(entries) < limits.maxFiles
      ensures entries == old(entries) + if ok then 1 else 0
    {
      ok := entries < limits.maxFiles;
      if ok { entries := entries + 1; }
    }

    /** `_create_directory`: the depth of what goes inside is checked later. */
    method CreateDirectory(p: Path) returns (ok: bool)
      requires Valid() && p in source && source[p].Folder? && p !in view && AllBefore(view.Keys, p)
      requires (|p| > 1 ==> p[..|p| - 1] in view)
      modifies this
      ensures ok <==> old(entries) < limits.maxFiles
      ensures ok && EntryOk(source, limits, p) ==> Valid()
      ensures ok ==> view == old(view)[p := CopiedFolder]
    {
      hide Copied, EntryOk, AllBefore, WellFormed;
      if EntryOk(source, limits, p) && entries < limits.maxFiles {
        BytesFit();
        CopiedNext(source, limits, view, directories, manifest, entries, bytes, p);
      }
      ok := ReserveEntry();
      if ok {
        view := view[p := CopiedFolder];
        directories := directories + {p};
        manifest := manifest + [Entry(p, CopiedFolder)];
      }
    }

    lemma BytesFit()
      requires Valid()
      ensures bytes <= limits.maxBytes
    {}

    /** `_copy_file`, whose source is a single-link file. */
    method CopyFile(p: Path) returns (ok: bool)
      requires Valid() && p in source && EntryOk(source, limits, p) && source[p].File? && p !in view
      requires AllBefore(view.Keys, p) && (|p| > 1 ==> p[..|p| - 1] in view)
      modifies this
      ensures ok <==> old(entries) < limits.maxFiles && old(bytes) + FileBytes(source, p) <= limits.maxBytes
      ensures ok ==> Valid() && view == old(view)[p := CopyOf(source[p])]
    {
      hide Copied, EntryOk, AllBefore, WellFormed;
      if |source[p].content| + bytes > limits.maxBytes { return false; }
      if entries < limits.maxFiles {
        CopiedNext(source, limits, view, directories, manifest, entries, bytes, p);
      }
      ok := ReserveEntry();
      if ok {
        view := view[p := CopiedFile(source[p].content, source[p].executable)];
        bytes := bytes + |source[p].content|;
        manifest := manifest + [Entry(p, CopiedFile(source[p].content, source[p].executable))];
      }
    }

    /** One entry of a directory, with everything in it. */
    method CopyEntry(p: Path) returns (ok: bool)
      requires Valid() && p in source && Fresh(source, view.Keys, p)
      modifies this
      ensures ok ==> Valid() && view.Keys == old(view.Keys) + Under(source, p)
      ensures ok <==> Within(source, limits, old(view.Keys) + Under(source, p))
      decreases MAX_DIRECTORY_DEPTH + 1 - |p|, 2
    {
      hide Copied, WellFormed, Within, Fresh, AllBefore, Allowed, Under, Inside, Size, FileBytes, UpTo;
      EntryFacts(source, limits, view.Keys, p);
      CountsAre();
      AllowedMeans(source, limits, p);
      if !Allowed(source, limits, p) { return false; }
      if source[p].File? {
        ok := CopyFile(p);
        if ok { ValidWithin(); }
      } else {
        ok := CopyFolder(p);
      }
    }

    /** A directory and everything in it. */
    method CopyFolder(p: Path) returns (ok: bool)
      requires Valid() && p in source && source[p].Folder? && Fresh(source, view.Keys, p) && p != []
      requires Allowed(source, limits, p)
      modifies this
      ensures ok ==> Valid() && view.Keys == old(view.Keys) + Under(source, p)
      ensures ok <==> Within(source, limits, old(view.Keys) + Under(source, p))
      decreases MAX_DIRECTORY_DEPTH + 1 - |p|, 1
    {
      hide Copied, Within, Fresh, AllBefore, Allowed, Under, Inside, Size, FileBytes, UpTo;
      ghost var before := view.Keys;
      EntryFacts(source, limits, before, p);
      CountsAre();
      ok := CreateDirectory(p);
      if !ok { return; }
      assert view.Keys == before + {p};
      assert view.Keys + Inside(source, p) == before + Under(source, p);
      ok := CopyDirectory(p);
    }

    /** `_copy_directory`: the names in order, each with everything in it. */
    method CopyDirectory(p: Path) returns (ok: bool)
      requires p in source && source[p].Folder? && WellFormed(source)
      requires |p| <= MAX_DIRECTORY_DEPTH ==> Valid() && UpTo(view.Keys, p) && view.Keys !! Inside(source, p)
      modifies this
      ensures ok ==> Valid() && view.Keys == old(view.Keys) + Inside(source, p)
      ensures ok <==> |p| <= MAX_DIRECTORY_DEPTH && Within(source, limits, old(view.Keys) + Inside(source, p))
      decreases MAX_DIRECTORY_DEPTH + 1 - |p|, 0
    {
      hide Copied, Within, Fresh, AllBefore, UpTo, Through, Inside, Under, Names, Ascending, StrictlyAscending,
           WellFormed;
      if |p| > MAX_DIRECTORY_DEPTH { return false; }
      ghost var before := view.Keys;
      var names := Ascending(Names(source, p));
      ManyNames(source, limits, before, p, names);
      if |names| > limits.maxFiles { return false; }
      ThroughNone(source, p, names);
      for i := 0 to |names|
        invariant Valid() && view.Keys == Passed(source, before, p, names, i)
      {
        NextFresh(source, before, p, names, i);
        ok := CopyEntry(p + [names[i]]);
        ThroughSome(source, limits, before, p, names, i);
        if !ok { return; }
      }
      PassedAll(source, before, p, names);
      ValidWithin();
      ok := true;
    }

    /** `_materialize_include`: the missing ancestors, then the path with everything in it. */
    method MaterializePick(pick: Path) returns (ok: bool)
      requires Valid() && pick != [] && PathBytes(pick) <= MAX_RELATIVE_PATH_BYTES && Upcoming(source, view.Keys, pick)
      modifies this
      ensures ok ==> Valid() && view.Keys == old(view.Keys) + Chosen(source, pick)
      ensures ok <==> pick in source && Within(source, limits, old(view.Keys) + Chosen(source, pick))
    {
      hide Copied, Within, Upcoming, Chosen, Ancestors, PathBytes, Under, WellFormed;
      ghost var before := view.Keys;
      AncestorsNone(before, pick);
      for i := 0 to |pick| - 1
        invariant Valid() && view.Keys == before + Ancestors(pick, i) && Upcoming(source, view.Keys, pick)
        invariant i > 0 ==> pick[..i] in view
      {
        ok := EnsureAncestor(pick, i, before);
        if !ok { return; }
      }
      if pick !in source { return false; }
      PickFresh(source, before, view.Keys, pick);
      ok := CopyEntry(pick);
    }

    /** `_ensure_directory` for one ancestor, after its source has been checked. */
    method EnsureAncestor(pick: Path, i: nat, ghost before: set<Path>) returns (ok: bool)
      requires Valid() && i + 1 < |pick| && PathBytes(pick) <= MAX_RELATIVE_PATH_BYTES && (i > 0 ==> pick[..i] in view)
      requires view.Keys == before + Ancestors(pick, i) && Upcoming(source, view.Keys, pick)
      modifies this
      ensures ok ==> Valid() && view.Keys == before + Ancestors(pick, i + 1) && Upcoming(source, view.Keys, pick)
                     && pick[..i + 1] in view
      ensures !ok ==> !(pick in source && Within(source, limits, before + Chosen(source, pick)))
    {
      hide Copied, Within, Upcoming, Chosen, Ancestors, PathBytes, AllBefore;
      var a := pick[..i + 1];
      PickFacts(source, limits, before, pick, i);
      CountsAre();
      if !NameOk(pick[i]) || i + 1 > MAX_DIRECTORY_DEPTH { return false; }
      if a !in source || !source[a].Folder? || source[a].identity == limits.workspace { return false; }
      AncestorOk(source, limits, view.Keys, pick, i);
      DirectoriesAre(a);
      if a !in directories {
        ok := CreateDirectory(a);
        if !ok { return; }
      }
      AncestorsNext(source, before, pick, i, view.Keys);
      ok := true;
    }

    lemma DirectoriesAre(a: Path)
      requires Valid() && a in source && source[a].Folder?
      ensures a in directories <==> a in view
    {}

    lemma CountsAre()
      requires Valid()
      ensures entries == |view.Keys| && bytes == Size(source, view.Keys)
    {}

    lemma ValidWithin()
      requires Valid()
      ensures Within(source, limits, view.Keys)
    {}
  }

  // ---- all include paths ----

  /** No include path is another or leads to another. */
  ghost predicate Unrelated(picks: seq<Path>) {
    forall i, j :: 0 <= i < j < |picks| ==> !Related(picks[i], picks[j])
  }

  /** `_checked_include_set` and the duplicate check after it. */
  method CheckPicks(picks: seq<Path>) returns (ok: bool)
    requires forall i :: 0 <= i < |picks| ==> picks[i] != []
    ensures ok <==> Unrelated(picks)
  {
    var known := set i | 0 <= i < |picks| :: picks[i];
    for i := 0 to |picks|
      invariant forall j, k :: 0 <= j < i && 0 <= k < |picks| ==> !(picks[k] < picks[j])
    {
      var shorter := AnyShorter(picks[i], known);
      if shorter {
        var k: nat :| k < |picks[i]| && picks[i][..k] in known;
        LeadsTo(picks, i, k);
        return false;
      }
      forall k | 0 <= k < |picks| ensures !(picks[k] < picks[i]) {
        assert picks[k] in known;
        ShorterFound(picks[i], picks[k], known);
      }
    }
    DistinctSize(picks, |picks|);
    ok := |known| == |picks|;
    if ok {
      forall i, j | 0 <= i < j < |picks| ensures !Related(picks[i], picks[j]) { SameOrShorter(picks[i], picks[j]); }
    }
  }

  lemma ShorterFound(p: Path, q: Path, known: set<Path>)
    requires q in known && q != []
    ensures q < p ==> exists k :: 0 < k < |p| && p[..k] in known
  {
    if q < p { assert p[..|q|] == q; }
  }

  lemma SameOrShorter(p: Path, q: Path)
    ensures Related(p, q) ==> p == q || p < q || q < p
  {
    assert |p| == |q| && p <= q ==> p == q;
    assert |p| == |q| && q <= p ==> p == q;
  }

  method AnyShorter(p: Path, known: set<Path>) returns (found: bool)
    requires p != []
    ensures found <==> exists k :: 0 < k < |p| && p[..k] in known
  {
    for k := 1 to |p|
      invariant forall j :: 0 < j < k ==> p[..j] !in known
    {
      if p[..k] in known { return true; }
    }
    found := false;
  }

  lemma LeadsTo(picks: seq<Path>, i: nat, k: nat)
    requires i < |picks| && k < |picks[i]| && exists j :: 0 <= j < |picks| && picks[j] == picks[i][..k]
    ensures !Unrelated(picks)
  {
    var j :| 0 <= j < |picks| && picks[j] == picks[i][..k];
    assert Related(picks[j], picks[i]) && Related(picks[i], picks[j]) && i != j;
    assert i < j || j < i;
  }

  lemma {:induction false} DistinctSize(picks: seq<Path>, n: nat)
    requires n <= |picks|
    ensures var s := set i | 0 <= i < n :: picks[i];
            |s| <= n && (|s| == n <==> forall i, j :: 0 <= i < j < n ==> picks[i] != picks[j])
  {
    if n > 0 {
      DistinctSize(picks, n - 1);
      var some := set i | 0 <= i < n - 1 :: picks[i];
      assert (set i | 0 <= i < n :: picks[i]) == some + {picks[n - 1]};
      if picks[n - 1] in some {
        assert some + {picks[n - 1]} == some;
        var i :| 0 <= i < n - 1 && picks[i] == picks[n - 1];
      }
    }
  }

  // ---- sorting and copying them all ----

  ghost predicate PathsInOrder(ps: seq<Path>) {
    forall i, j :: 0 <= i < j < |ps| ==> PathBelow(ps[i], ps[j])
  }

  function Insert(p: Path, ps: seq<Path>): (r: seq<Path>)
    ensures forall x :: x in r <==> x == p || x in ps
  {
    if ps == [] || PathBelow(p, ps[0]) then [p] + ps else [ps[0]] + Insert(p, ps[1..])
  }

  lemma {:induction false} InsertInOrder(p: Path, ps: seq<Path>)
    requires PathsInOrder(ps) && p !in ps
    ensures PathsInOrder(Insert(p, ps))
  {
    if ps != [] {
      var rest := ps[1..];
      forall x | x in rest ensures PathBelow(ps[0], x) {
        var i :| 0 <= i < |rest| && rest[i] == x;
        assert ps[i + 1] == x;
      }
      if PathBelow(p, ps[0]) {
        forall x | x in ps ensures PathBelow(p, x) {
          if x != ps[0] { assert x in rest; PathTransitive(p, ps[0], x); }
        }
      } else {
        PathTotal(p, ps[0]);
        InsertInOrder(p, rest);
        assert Insert(p, ps) == [ps[0]] + Insert(p, rest);
        forall x | x in Insert(p, rest) ensures PathBelow(ps[0], x) {}
      }
    }
  }

  /** The include paths by component order. */
  method SortPicks(picks: seq<Path>) returns (sorted: seq<Path>)
    requires forall i, j :: 0 <= i < j < |picks| ==> picks[i] != picks[j]
    ensures PathsInOrder(sorted) && forall x :: x in sorted <==> x in picks
  {
    sorted := [];
    for i := 0 to |picks|
      invariant PathsInOrder(sorted) && forall x :: x in sorted <==> x in picks[..i]
    {
      assert picks[..i + 1] == picks[..i] + [picks[i]];
      InsertInOrder(picks[i], sorted);
      sorted := Insert(picks[i], sorted);
    }
    assert picks[..|picks|] == picks;
  }

  function SetOf(ps: seq<Path>): set<Path> {
    set p | p in ps
  }

  lemma SortedUnrelated(picks: seq<Path>, sorted: seq<Path>)
    requires PathsInOrder(sorted) && (forall x :: x in sorted ==> x in picks) && Unrelated(picks)
    ensures Unrelated(sorted)
  {
    forall i, j | 0 <= i < j < |sorted| ensures !Related(sorted[i], sorted[j]) {
      PathIrreflexive(sorted[i]);
      assert sorted[i] in sorted && sorted[j] in sorted;
      var a :| 0 <= a < |picks| && picks[a] == sorted[i];
      var b :| 0 <= b < |picks| && picks[b] == sorted[j];
      assert a < b || b < a;
    }
  }

  lemma BroughtBefore(source: Tree, sorted: seq<Path>, n: nat, e: Path)
    requires n < |sorted| && PathsInOrder(sorted) && Unrelated(sorted) && e in Selected(source, SetOf(sorted[..n]))
    ensures PathBelow(e, sorted[n]) && !(sorted[n] <= e)
  {
    var p :| p in SetOf(sorted[..n]) && Related(e, p);
    var i :| 0 <= i < n && sorted[..n][i] == p;
    assert sorted[i] == p && !Related(p, sorted[n]);
    hide Related;
    NotUnderBoth(p, sorted[n], e);
    SelfRelated(sorted[n]);
    PartedBelow(p, sorted[n], e, sorted[n]);
  }

  lemma SelfRelated(p: Path)
    ensures Related(p, p)
  {}

  /** The next include path comes after everything the earlier ones brought in. */
  lemma NextUpcoming(source: Tree, sorted: seq<Path>, n: nat)
    requires WellFormed(source) && n < |sorted| && PathsInOrder(sorted) && Unrelated(sorted)
    ensures Upcoming(source, Selected(source, SetOf(sorted[..n])), sorted[n])
    ensures Selected(source, SetOf(sorted[..n + 1])) == Selected(source, SetOf(sorted[..n])) + Chosen(source, sorted[n])
  {
    hide Related, PathBelow;
    assert sorted[..n + 1] == sorted[..n] + [sorted[n]];
    assert SetOf(sorted[..n + 1]) == SetOf(sorted[..n]) + {sorted[n]};
    forall e | e in Selected(source, SetOf(sorted[..n])) ensures PathBelow(e, sorted[n]) && !(sorted[n] <= e) {
      BroughtBefore(source, sorted, n, e);
    }
    SelectedClosed(source, SetOf(sorted[..n]));
  }

  lemma PrefixesRelated(p: Path, q: Path, e: Path)
    requires p <= e && q <= e
    ensures Related(p, q)
  {
    if |p| <= |q| { assert p == q[..|p|]; } else { assert q == p[..|q|]; }
  }

  lemma NotUnderBoth(p: Path, q: Path, e: Path)
    requires !Related(p, q) && Related(e, p)
    ensures !(q <= e)
  {
    if q <= e && p <= e { PrefixesRelated(p, q, e); }
  }

  lemma SelectedClosed(source: Tree, picks: set<Path>)
    requires WellFormed(source)
    ensures ClosedUp(Selected(source, picks))
  {
    var s := Selected(source, picks);
    forall p, k | p in s && 0 < k < |p| ensures p[..k] in s {
      var i :| i in picks && Related(p, i);
      assert p <= i ==> p[..k] <= i;
      assert i <= p ==> Related(p[..k], i);
    }
  }

  /** A view and its manifest. */
  datatype Materialized = Materialized(view: map<Path, Copy>, manifest: seq<Entry>)

  /** `materialize_source_view` on a static source: accepted exactly when the selection may be copied, and
      then the view is the source restricted to it, listed once each in component order. */
  method Materialize(source: Tree, picks: seq<Path>, limits: Limits) returns (r: Option<Materialized>)
    requires WellFormed(source) && Unrelated(picks)
    requires forall i :: 0 <= i < |picks| ==> picks[i] != [] && PathBytes(picks[i]) <= MAX_RELATIVE_PATH_BYTES
    ensures r.Some? <==> Admissible(source, SetOf(picks), limits)
    ensures r.Some? ==> var s := Selected(source, SetOf(picks));
              && r.value.view == Restriction(source, s) && Lists(source, s, r.value.manifest)
              && |r.value.manifest| <= limits.maxFiles && Size(source, s) <= limits.maxBytes
  {
    hide Copied, WellFormed, Within, Lists, Selected, Restriction, Unrelated, PathsInOrder, Size, PathBytes, SetOf,
         Upcoming, Chosen, Admissible;
    PicksDistinct(picks);
    var sorted := SortPicks(picks);
    var state := new CopyState(source, limits);
    SelectedNone(source, limits, picks, sorted);
    for i := 0 to |sorted|
      invariant state.Valid() && fresh(state) && state.source == source && state.limits == limits
      invariant state.view.Keys == Selected(source, SetOf(sorted[..i]))
      invariant forall p :: p in sorted[..i] ==> p in source
    {
      PickNext(source, limits, picks, sorted, i);
      var ok := state.MaterializePick(sorted[i]);
      if !ok { return None; }
      assert sorted[..i + 1] == sorted[..i] + [sorted[i]];
    }
    assert sorted[..|sorted|] == sorted;
    Delivered(state, picks, sorted);
    r := Some(Materialized(state.view, state.manifest));
  }

  lemma PicksDistinct(picks: seq<Path>)
    requires Unrelated(picks)
    ensures forall i, j :: 0 <= i < j < |picks| ==> picks[i] != picks[j]
  {
    forall i, j | 0 <= i < j < |picks| ensures picks[i] != picks[j] { assert !Related(picks[i], picks[j]); }
  }

  lemma SelectedNone(source: Tree, limits: Limits, picks: seq<Path>, sorted: seq<Path>)
    requires PathsInOrder(sorted) && (forall x :: x in sorted <==> x in picks) && Unrelated(picks)
    ensures Selected(source, SetOf(sorted[..0])) == {} && Unrelated(sorted) && SetOf(sorted) == SetOf(picks)
  {
    SortedUnrelated(picks, sorted);
  }

  lemma PickNext(source: Tree, limits: Limits, picks: seq<Path>, sorted: seq<Path>, i: nat)
    requires WellFormed(source) && i < |sorted| && PathsInOrder(sorted) && Unrelated(sorted)
    requires SetOf(sorted) == SetOf(picks)
    requires forall k :: 0 <= k < |picks| ==> picks[k] != [] && PathBytes(picks[k]) <= MAX_RELATIVE_PATH_BYTES
    ensures sorted[i] != [] && PathBytes(sorted[i]) <= MAX_RELATIVE_PATH_BYTES
    ensures Upcoming(source, Selected(source, SetOf(sorted[..i])), sorted[i])
    ensures Selected(source, SetOf(sorted[..i + 1])) == Selected(source, SetOf(sorted[..i])) + Chosen(source, sorted[i])
    ensures Admissible(source, SetOf(picks), limits) ==>
              sorted[i] in source && Within(source, limits,
                                            Selected(source, SetOf(sorted[..i])) + Chosen(source, sorted[i]))
  {
    hide WellFormed, Unrelated, PathsInOrder, PathBytes, Upcoming;
    assert sorted[i] in SetOf(picks);
    var k :| 0 <= k < |picks| && picks[k] == sorted[i];
    NextUpcoming(source, sorted, i);
    if Admissible(source, SetOf(picks), limits) {
      SelectedMore(source, SetOf(sorted[..i + 1]), SetOf(picks));
      WithinLess(source, limits, Selected(source, SetOf(sorted[..i + 1])), Selected(source, SetOf(picks)));
    }
  }

  lemma SelectedMore(source: Tree, a: set<Path>, b: set<Path>)
    requires a <= b
    ensures Selected(source, a) <= Selected(source, b)
  {}

  lemma Delivered(state: CopyState, picks: seq<Path>, sorted: seq<Path>)
    requires state.Valid() && SetOf(sorted) == SetOf(picks) && state.view.Keys == Selected(state.source, SetOf(sorted))
    requires forall p :: p in sorted ==> p in state.source
    ensures var s := Selected(state.source, SetOf(picks));
            && state.view == Restriction(state.source, s) && Lists(state.source, s, state.manifest)
            && |state.manifest| <= state.limits.maxFiles && Size(state.source, s) <= state.limits.maxBytes
            && Admissible(state.source, SetOf(picks), state.limits)
  {
    hide Size, EntryOk, Related;
    forall i | i in SetOf(picks) ensures i in state.source { assert i in SetOf(sorted); }
    ManifestSize(state.source, Selected(state.source, SetOf(picks)), state.manifest);
  }

  lemma {:induction false} ManifestSize(source: Tree, done: set<Path>, manifest: seq<Entry>)
    requires Lists(source, done, manifest)
    ensures |manifest| == |done|
  {
    if manifest == [] {
      assert done == {};
    } else {
      var front, last := manifest[..|manifest| - 1], manifest[|manifest| - 1].path;
      forall i | 0 <= i < |front| ensures front[i].path != last { PathIrreflexive(last); }
      assert last in PathsOf(manifest);
      forall q | q in done - {last} ensures q in PathsOf(front) {
        var i :| 0 <= i < |manifest| && manifest[i].path == q;
        assert front[i].path == q;
      }
      forall q | q in PathsOf(front) ensures q in done - {last} {
        var i :| 0 <= i < |front| && front[i].path == q;
        assert manifest[i].path == q;
      }
      assert PathsOf(front) == done - {last};
      ManifestSize(source, done - {last}, front);
    }
  }

  /** A listing in order is determined by what it lists. */
  lemma {:induction false} ListingUnique(source: Tree, done: set<Path>, a: seq<Entry>, b: seq<Entry>)
    requires Lists(source, done, a) && Lists(source, done, b)
    ensures a == b
  {
    ManifestSize(source, done, a);
    ManifestSize(source, done, b);
    if a != [] {
      ListingFirst(source, done, a, b);
      var first := a[0].path;
      ListingRest(source, done, a);
      ListingRest(source, done, b);
      ListingUnique(source, done - {first}, a[1..], b[1..]);
      assert a == [a[0]] + a[1..] && b == [b[0]] + b[1..];
    }
  }

  lemma ListingFirst(source: Tree, done: set<Path>, a: seq<Entry>, b: seq<Entry>)
    requires Lists(source, done, a) && Lists(source, done, b) && a != [] && b != []
    ensures a[0] == b[0]
  {
    var p, q := a[0].path, b[0].path;
    assert p in PathsOf(a) && q in PathsOf(b);
    var i :| 0 <= i < |b| && b[i].path == p;
    var j :| 0 <= j < |a| && a[j].path == q;
    if p != q {
      PathTransitive(p, q, p);
      PathIrreflexive(p);
    }
  }

  lemma ListingRest(source: Tree, done: set<Path>, a: seq<Entry>)
    requires Lists(source, done, a) && a != []
    ensures Lists(source, done - {a[0].path}, a[1..])
  {
    var rest, first := a[1..], a[0].path;
    forall i | 0 <= i < |rest| ensures rest[i] == a[i + 1] && rest[i].path != first { PathIrreflexive(first); }
    forall q | q in done - {first} ensures q in PathsOf(rest) {
      var i :| 0 <= i < |a| && a[i].path == q;
      assert rest[i - 1].path == q;
    }
    forall q | q in PathsOf(rest) ensures q in done - {first} {
      var i :| 0 <= i < |rest| && rest[i].path == q;
      assert a[i + 1].path in PathsOf(a);
    }
    assert PathsOf(rest) == done - {first};
  }
}
