/** Publishing one journal record on a disk that keeps only what was synced: whatever the
    moment of the crash, the record found afterwards is the old one or the new one. */
module Publication {
  import opened Options

  type Content = seq<int>
  type Inode = nat

  /** A file's bytes, and whether they have reached the disk. */
  datatype File = File(content: Content, synced: bool)

  /** One atomic change of directory entries: some names set, some removed. */
  datatype Change = Change(names: map<string, Inode>, removed: set<string>)

  /** Entries on disk, entry changes not yet synced, and the files. */
  datatype Disk = Disk(entries: map<string, Inode>, pending: seq<Change>, files: map<Inode, File>)

  predicate IsTemp(name: string) {
    ".tmp-" <= name
  }

  function Apply(entries: map<string, Inode>, c: Change): map<string, Inode> {
    (entries - c.removed) + c.names
  }

  /** The pending changes a crash happened to keep, in order. */
  function Kept(entries: map<string, Inode>, pending: seq<Change>, keep: seq<bool>): map<string, Inode>
    requires |keep| == |pending|
    decreases |pending|
  {
    if pending == [] then entries
    else
      var before := Kept(entries, pending[..|pending| - 1], keep[..|pending| - 1]);
      if keep[|pending| - 1] then Apply(before, pending[|pending| - 1]) else before
  }

  /** What a running process sees: every change applied. */
  function Visible(disk: Disk): map<string, Inode> {
    Kept(disk.entries, disk.pending, seq(|disk.pending|, i => true))
  }

  /** The journal a crash leaves: any subset of the pending changes, and anything at all in unsynced files. */
  function AfterCrash(disk: Disk, keep: seq<bool>, garbage: map<Inode, Content>): map<string, Content>
    requires |keep| == |disk.pending|
  {
    var entries := Kept(disk.entries, disk.pending, keep);
    map n | n in entries :: Bytes(disk, garbage, entries[n])
  }

  function Bytes(disk: Disk, garbage: map<Inode, Content>, ino: Inode): Content {
    if ino in disk.files && disk.files[ino].synced then disk.files[ino].content
    else if ino in garbage then garbage[ino] else []
  }

  // ---- what publication keeps at every moment ----

  /** Nothing pending concerns a record; every record's bytes are on disk. */
  ghost predicate Quiet(disk: Disk) {
    && (forall c :: c in disk.pending ==> TempOnly(c))
    && (forall n :: n in disk.entries && !IsTemp(n) ==>
                      disk.entries[n] in disk.files && disk.files[disk.entries[n]].synced)
  }

  ghost predicate TempOnly(c: Change) {
    (forall n :: n in c.names ==> IsTemp(n)) && (forall n :: n in c.removed ==> IsTemp(n))
  }

  /** The bytes of a name after a crash, if it is there. */
  function Found(journal: map<string, Content>, name: string): Option<Content> {
    if name in journal then Some(journal[name]) else None
  }

  /** The bytes durably recorded under a name. */
  function Durable(disk: Disk, name: string): Option<Content> {
    if name in disk.entries && disk.entries[name] in disk.files then Some(disk.files[disk.entries[name]].content)
       else None
  }

  /** Whatever a crash keeps now, every other record is as before, and `final` has one of the allowed contents. */
  ghost predicate CrashSafe(before: Disk, disk: Disk, final: string, allowed: set<Option<Content>>) {
    forall keep, garbage :: |keep| == |disk.pending| ==>
                              SafeOutcome(before, AfterCrash(disk, keep, garbage), final, allowed)
  }

  ghost predicate SafeOutcome(before: Disk, journal: map<string, Content>, final: string,
                              allowed: set<Option<Content>>) {
    && Found(journal, final) in allowed
    && forall n :: !IsTemp(n) && n != final ==> Found(journal, n) == Durable(before, n)
  }

  /** The unsynced part of a publication: only temporaries change, or the last change installs the new file. */
  ghost predicate Installing(before: Disk, disk: Disk, final: string, ino: Inode, content: Content, installed: bool) {
    && Quiet(before) && disk.entries == before.entries
    && (forall i :: i in before.files ==> i in disk.files && disk.files[i] == before.files[i])
    && if installed then
         && disk.pending != [] && (forall c :: c in disk.pending[..|disk.pending| - 1] ==> TempOnly(c))
         && Installs(disk.pending[|disk.pending| - 1], final, ino)
         && ino in disk.files && disk.files[ino] == File(content, true)
       else forall c :: c in disk.pending ==> TempOnly(c)
  }

  ghost predicate Installs(c: Change, final: string, ino: Inode) {
    c.names == map[final := ino] && (forall n :: n in c.removed ==> IsTemp(n))
  }

  lemma {:induction false} TempsOnly(entries: map<string, Inode>, pending: seq<Change>, keep: seq<bool>, n: string)
    requires |keep| == |pending| && (forall c :: c in pending ==> TempOnly(c)) && !IsTemp(n)
    ensures n in Kept(entries, pending, keep) <==> n in entries
    ensures n in entries ==> Kept(entries, pending, keep)[n] == entries[n]
  {
    if pending != [] {
      var last := pending[|pending| - 1];
      assert last in pending && TempOnly(last);
      TempsOnly(entries, pending[..|pending| - 1], keep[..|pending| - 1], n);
    }
  }

  /** Before the rename nothing but the old record can be found; after it, the old or the new one. */
  lemma InstallingSafe(before: Disk, disk: Disk, final: string, ino: Inode, content: Content, installed: bool)
    requires Installing(before, disk, final, ino, content, installed) && !IsTemp(final)
    ensures CrashSafe(before, disk, final, if installed then {Durable(before, final), Some(content)}
                      else {Durable(before, final)})
  {
    var allowed := if installed then {Durable(before, final), Some(content)} else {Durable(before, final)};
    forall keep, garbage | |keep| == |disk.pending|
      ensures SafeOutcome(before, AfterCrash(disk, keep, garbage), final, allowed)
    {
      OutcomeSafe(before, disk, final, ino, content, installed, keep, garbage);
    }
  }

  lemma OutcomeSafe(before: Disk, disk: Disk, final: string, ino: Inode, content: Content, installed: bool,
                    keep: seq<bool>, garbage: map<Inode, Content>)
    requires Installing(before, disk, final, ino, content, installed) && !IsTemp(final) && |keep| == |disk.pending|
    ensures SafeOutcome(before, AfterCrash(disk, keep, garbage), final,
                        if installed then {Durable(before, final), Some(content)} else {Durable(before, final)})
  {
    var journal := AfterCrash(disk, keep, garbage);
    var last := |disk.pending| - 1;
    forall n | !IsTemp(n)
      ensures n != final ==> Found(journal, n) == Durable(before, n)
      ensures Found(journal, final) == Durable(before, final) || (installed && Found(journal, final) == Some(content))
    {
      if installed {
        TempsOnly(disk.entries, disk.pending[..last], keep[..last], n);
        TempsOnly(disk.entries, disk.pending[..last], keep[..last], final);
      } else {
        TempsOnly(disk.entries, disk.pending, keep, n);
        TempsOnly(disk.entries, disk.pending, keep, final);
      }
    }
  }

  lemma WiderSafe(before: Disk, disk: Disk, final: string, a: set<Option<Content>>, b: set<Option<Content>>)
    requires CrashSafe(before, disk, final, a) && a <= b
    ensures CrashSafe(before, disk, final, b)
  {
    forall keep, garbage | |keep| == |disk.pending|
      ensures SafeOutcome(before, AfterCrash(disk, keep, garbage), final, b)
    {
      assert SafeOutcome(before, AfterCrash(disk, keep, garbage), final, a);
    }
  }

  lemma StageSafe(before: Disk, disk: Disk, final: string, ino: Inode, content: Content, installed: bool)
    requires Quiet(before) && !IsTemp(final)
    requires (disk == before && !installed) || Installing(before, disk, final, ino, content, installed)
    ensures Installing(before, disk, final, ino, content, installed)
    ensures CrashSafe(before, disk, final, {Durable(before, final), Some(content)})
  {
    hide CrashSafe, Durable;
    InstallingSafe(before, disk, final, ino, content, installed);
    WiderSafe(before, disk, final, if installed then {Durable(before, final), Some(content)}
              else {Durable(before, final)},
              {Durable(before, final), Some(content)});
  }

  /** One more change of the temporary name, and anything written to the new file. */
  lemma Extended(before: Disk, now: Disk, disk: Disk, final: string, ino: Inode, content: Content, temp: string)
    requires Installing(before, now, final, ino, content, false) && !IsTemp(final) && IsTemp(temp)
    requires ino !in before.files
    requires disk.entries == now.entries
    requires forall i :: i in now.files && i != ino ==> i in disk.files && disk.files[i] == now.files[i]
    requires disk.pending == now.pending + [Change(map[temp := ino], {})]
             || disk.pending == now.pending + [Change(map[], {temp})]
    ensures Installing(before, disk, final, ino, content, false)
    ensures CrashSafe(before, disk, final, {Durable(before, final), Some(content)})
  {
    hide CrashSafe, Durable;
    assert TempOnly(disk.pending[|now.pending|]);
    StageSafe(before, disk, final, ino, content, false);
  }

  lemma Renamed(before: Disk, now: Disk, disk: Disk, final: string, temp: string, ino: Inode, content: Content)
    requires Installing(before, now, final, ino, content, false) && !IsTemp(final) && IsTemp(temp)
    requires ino in now.files && now.files[ino] == File(content, true)
    requires disk == now.(pending := now.pending + [Change(map[final := ino], {temp})])
    ensures Installing(before, disk, final, ino, content, true)
    ensures CrashSafe(before, disk, final, {Durable(before, final), Some(content)})
  {
    hide CrashSafe, Durable;
    assert disk.pending[..|disk.pending| - 1] == now.pending;
    StageSafe(before, disk, final, ino, content, true);
  }

  /** The directory sync leaves only the new record, and nothing pending. */
  lemma Finished(before: Disk, renamed: Disk, disk: Disk, final: string, ino: Inode, content: Content)
    requires Installing(before, renamed, final, ino, content, true) && !IsTemp(final)
    requires disk == Disk(Visible(renamed), [], renamed.files)
    ensures Quiet(disk) && CrashSafe(before, disk, final, {Some(content)})
    ensures Durable(disk, final) == Some(content) && OthersDurable(before, disk, final)
  {
    var last := |renamed.pending| - 1;
    var all := seq(|renamed.pending|, i => true);
    forall n | !IsTemp(n)
      ensures n in disk.entries <==> n == final || n in before.entries
      ensures n in disk.entries ==> disk.entries[n] == if n == final then ino else before.entries[n]
    {
      TempsOnly(renamed.entries, renamed.pending[..last], all[..last], n);
    }
    forall keep, garbage | |keep| == |disk.pending|
      ensures SafeOutcome(before, AfterCrash(disk, keep, garbage), final, {Some(content)})
    {
      assert Kept(disk.entries, disk.pending, keep) == disk.entries;
    }
  }

  // ---- the publisher ----

  /** `Unsynced`: the record was renamed into place and the sync of its directory failed. */
  datatype Outcome = Published | Failed | Unsynced | Crashed

  /** Every record but `final` is durably as before. */
  ghost predicate OthersDurable(before: Disk, disk: Disk, final: string) {
    forall n :: !IsTemp(n) && n != final ==> Durable(disk, n) == Durable(before, n)
  }

  class JournalDisk {
    var disk: Disk

    constructor (disk: Disk)
      ensures this.disk == disk
    {
      this.disk := disk;
    }

    /** `write`, in pieces of any size; a piece of no size is an error. */
    method WriteAll(ino: Inode, encoded: Content, steady: bool) returns (r: Outcome)
      requires ino in disk.files && disk.files[ino] == File([], false)
      modifies this
      ensures disk == old(disk).(files := disk.files) && ino in disk.files
      ensures disk.files == old(disk).files[ino := disk.files[ino]]
      ensures r.Published? ==> disk.files[ino] == File(encoded, false)
      ensures steady ==> r.Published?
    {
      var offset := 0;
      while offset < |encoded|
        invariant 0 <= offset <= |encoded|
        invariant disk == old(disk).(files := old(disk).files[ino := File(encoded[..offset], false)])
      {
        var cut: bool := *;
        if cut && !steady { return Crashed; }
        var count: int := *;
        if count <= 0 {
          if !steady { return Failed; }
          count := 1;
        }
        var next := if offset + count <= |encoded| then offset + count else |encoded|;
        disk := disk.(files := disk.files[ino := File(encoded[..next], false)]);
        offset := next;
      }
      assert encoded[..|encoded|] == encoded;
      r := Published;
    }

    /** `_publish`: temporary file, sync, rename over the record, sync of the directory. A crash may fall
        between any two steps; a failed step removes the temporary name again. `ino` is the file the
        file system hands out; nothing is cut off and no step fails if `steady`. */
    method Publish(final: string, temp: string, encoded: Content, create: bool, ino: Inode, steady: bool)
        returns (r: Outcome)
      requires Quiet(disk) && !IsTemp(final) && IsTemp(temp) && ino !in disk.files
      modifies this
      ensures disk.files.Keys <= old(disk).files.Keys + {ino}
      ensures r.Published? ==> Quiet(disk) && Durable(disk, final) == Some(encoded)
                               && OthersDurable(old(disk), disk, final)
      ensures r.Published? ==> CrashSafe(old(disk), disk, final, {Some(encoded)})
      ensures r.Failed? ==> Quiet(disk) && Durable(disk, final) == Durable(old(disk), final)
                            && OthersDurable(old(disk), disk, final)
      ensures r.Failed? ==> CrashSafe(old(disk), disk, final, {Durable(old(disk), final)})
      ensures CrashSafe(old(disk), disk, final, {Durable(old(disk), final), Some(encoded)})
      ensures create && final in Visible(old(disk)) ==> disk == old(disk) && r.Failed?
      ensures steady && !(create && final in Visible(old(disk))) ==> r.Published?
    {
      hide CrashSafe, Quiet, Installing, Kept, Visible, Durable, OthersDurable;
      ghost var before := disk;
      StageSafe(before, disk, final, ino, encoded, false);
      StillQuiet(before, disk, final, ino, encoded);
      if create && final in Visible(disk) { return Failed; }
      disk := Disk(disk.entries, disk.pending + [Change(map[temp := ino], {})], disk.files[ino := File([], false)]);
      Extended(before, before, disk, final, ino, encoded, temp);
      r := WriteAll(ino, encoded, steady);
      Extended(before, before, disk, final, ino, encoded, temp);
      if r.Crashed? { return; }
      var fails: bool := *;
      if r.Failed? || (fails && !steady) {
        ghost var now := disk;
        Unlink(temp);
        Extended(before, now, disk, final, ino, encoded, temp);
        StillQuiet(before, disk, final, ino, encoded);
        return Failed;
      }
      disk := disk.(files := disk.files[ino := File(encoded, true)]);
      Extended(before, before, disk, final, ino, encoded, temp);
      var cut: bool := *;
      if cut && !steady { return Crashed; }
      fails := *;
      if fails && !steady {
        ghost var now := disk;
        Unlink(temp);
        Extended(before, now, disk, final, ino, encoded, temp);
        StillQuiet(before, disk, final, ino, encoded);
        return Failed;
      }
      ghost var written := disk;
      disk := disk.(pending := disk.pending + [Change(map[final := ino], {temp})]);
      Renamed(before, written, disk, final, temp, ino, encoded);
      cut := *;
      if cut && !steady { return Crashed; }
      fails := *;
      if fails && !steady { return Unsynced; }
      ghost var renamed := disk;
      disk := Disk(Visible(disk), [], disk.files);
      Finished(before, renamed, disk, final, ino, encoded);
      WiderSafe(before, disk, final, {Some(encoded)}, {Durable(before, final), Some(encoded)});
      r := Published;
    }

    /** Removing a temporary name: no record is touched. */
    method Unlink(temp: string)
      requires IsTemp(temp)
      modifies this
      ensures disk == old(disk).(pending := old(disk).pending + [Change(map[], {temp})])
      ensures Quiet(old(disk)) ==> Quiet(disk)
    {
      disk := disk.(pending := disk.pending + [Change(map[], {temp})]);
    }

    /** One publication after another, up to the first that is cut off or left unsynced. Whatever a crash keeps
        then, every record is exactly the last one published under its name; only the publication under way may
        instead have left its new one. Undisturbed, all are carried out, and each is published unless it was to
        create a record that is there. */
    method PublishAll(requests: seq<Request>, steady: bool) returns (outcomes: seq<Outcome>)
      requires Quiet(disk)
      requires forall i :: 0 <= i < |requests| ==>
                             !IsTemp(requests[i].final) && IsTemp(requests[i].temp) && requests[i].ino !in disk.files
      requires forall i, j :: 0 <= i < j < |requests| ==> requests[i].ino != requests[j].ino
      modifies this
      ensures |outcomes| <= |requests|
      ensures forall i :: 0 <= i < |outcomes| - 1 ==> outcomes[i].Published? || outcomes[i].Failed?
      ensures |outcomes| < |requests| ==> outcomes != [] && Open(outcomes[|outcomes| - 1])
      ensures forall keep, garbage, n :: |keep| == |disk.pending| && !IsTemp(n) ==>
                Explained(old(disk), requests, outcomes, n, Found(AfterCrash(disk, keep, garbage), n))
      ensures steady ==> |outcomes| == |requests|
      ensures steady ==> forall i :: 0 <= i < |outcomes| ==> Settled(old(disk), requests, outcomes, i)
    {
      hide CrashSafe, Quiet, Installing, Kept, Visible, Durable, AfterCrash, OthersDurable, Settled, Latest;
      ghost var before := disk;
      outcomes := [];
      NothingLatest(before, requests);
      for i := 0 to |requests|
        invariant |outcomes| == i && Quiet(disk)
        invariant forall k :: 0 <= k < i ==> outcomes[k].Published? || outcomes[k].Failed?
        invariant forall k :: i <= k < |requests| ==> requests[k].ino !in disk.files
        invariant forall n :: !IsTemp(n) ==> Durable(disk, n) == Latest(before, requests, outcomes, n)
        invariant steady ==> forall k :: 0 <= k < i ==> Settled(before, requests, outcomes, k)
      {
        ghost var now, done := disk, outcomes;
        var q := requests[i];
        VisibleDurable(disk, q.final);
        var r := Publish(q.final, q.temp, q.content, q.create, q.ino, steady);
        outcomes := outcomes + [r];
        assert outcomes[..i] == done;
        SettledMore(before, requests, done, outcomes);
        if Open(r) {
          OpenExplained(before, now, disk, requests, outcomes);
          return;
        }
        LatestNext(before, now, disk, requests, outcomes);
      }
      QuietExplained(before, disk, requests, outcomes);
    }
  }

  datatype Request = Request(final: string, temp: string, content: Content, create: bool, ino: Inode)

  /** The publication did not end: cut off, or its rename not synced. */
  predicate Open(r: Outcome) {
    r.Crashed? || r.Unsynced?
  }

  /** The last content published under a name. */
  function Latest(disk: Disk, requests: seq<Request>, outcomes: seq<Outcome>, n: string): Option<Content>
    requires |outcomes| <= |requests|
    decreases |outcomes|
  {
    if outcomes == [] then Durable(disk, n)
    else
      var k := |outcomes| - 1;
      if outcomes[k].Published? && requests[k].final == n then Some(requests[k].content)
      else Latest(disk, requests, outcomes[..k], n)
  }

  /** Published, or refused because the name was taken by then. */
  ghost predicate Settled(before: Disk, requests: seq<Request>, outcomes: seq<Outcome>, i: nat)
    requires i < |outcomes| <= |requests|
  {
    if requests[i].create && Latest(before, requests, outcomes[..i], requests[i].final).Some?
    then outcomes[i].Failed? else outcomes[i].Published?
  }

  lemma SettledMore(before: Disk, requests: seq<Request>, done: seq<Outcome>, outcomes: seq<Outcome>)
    requires |done| + 1 == |outcomes| <= |requests| && outcomes[..|done|] == done
    ensures forall k :: 0 <= k < |done| && Settled(before, requests, done, k) ==> Settled(before, requests, outcomes, k)
    ensures Settled(before, requests, outcomes, |done|) <==>
              var q := requests[|done|];
              if q.create && Latest(before, requests, done, q.final).Some?
              then outcomes[|done|].Failed? else outcomes[|done|].Published?
  {
    forall k | 0 <= k < |done| ensures done[..k] == outcomes[..k] && done[k] == outcomes[k] {}
  }

  lemma NothingLatest(disk: Disk, requests: seq<Request>)
    ensures forall n :: Latest(disk, requests, [], n) == Durable(disk, n)
  {}

  /** On a quiet disk the records seen are those that are durable. */
  lemma VisibleDurable(disk: Disk, n: string)
    requires Quiet(disk) && !IsTemp(n)
    ensures n in Visible(disk) <==> Durable(disk, n).Some?
  {
    TempsOnly(disk.entries, disk.pending, seq(|disk.pending|, i => true), n);
  }

  ghost predicate Explained(before: Disk, requests: seq<Request>, outcomes: seq<Outcome>, n: string,
                            found: Option<Content>)
    requires |outcomes| <= |requests|
  {
    || found == Latest(before, requests, outcomes, n)
    || (outcomes != [] && Open(outcomes[|outcomes| - 1]) && requests[|outcomes| - 1].final == n
        && found == Some(requests[|outcomes| - 1].content))
  }

  /** Before the rename the disk is as quiet as it was, and every record the same. */
  lemma StillQuiet(before: Disk, disk: Disk, final: string, ino: Inode, content: Content)
    requires Installing(before, disk, final, ino, content, false) && !IsTemp(final)
    ensures Quiet(disk) && Durable(disk, final) == Durable(before, final) && OthersDurable(before, disk, final)
    ensures CrashSafe(before, disk, final, {Durable(before, final)})
  {
    InstallingSafe(before, disk, final, ino, content, false);
    hide CrashSafe;
    forall n | !IsTemp(n) ensures Durable(disk, n) == Durable(before, n) {
      assert n in before.entries ==> before.entries[n] in before.files;
    }
  }

  /** What a crash leaves of a quiet disk is what was durable. */
  lemma QuietCrash(disk: Disk, keep: seq<bool>, garbage: map<Inode, Content>, n: string)
    requires Quiet(disk) && |keep| == |disk.pending| && !IsTemp(n)
    ensures Found(AfterCrash(disk, keep, garbage), n) == Durable(disk, n)
  {
    TempsOnly(disk.entries, disk.pending, keep, n);
  }

  lemma LatestNext(before: Disk, now: Disk, disk: Disk, requests: seq<Request>, outcomes: seq<Outcome>)
    requires 0 < |outcomes| <= |requests| && !Open(outcomes[|outcomes| - 1])
    requires forall n :: !IsTemp(n) ==> Durable(now, n) == Latest(before, requests, outcomes[..|outcomes| - 1], n)
    requires var k := |outcomes| - 1;
             && OthersDurable(now, disk, requests[k].final)
             && Durable(disk, requests[k].final) == if outcomes[k].Published? then Some(requests[k].content)
                else Durable(now, requests[k].final)
    ensures forall n :: !IsTemp(n) ==> Durable(disk, n) == Latest(before, requests, outcomes, n)
  {
    hide Durable;
  }

  lemma OpenExplained(before: Disk, now: Disk, disk: Disk, requests: seq<Request>, outcomes: seq<Outcome>)
    requires 0 < |outcomes| <= |requests| && Open(outcomes[|outcomes| - 1])
    requires forall n :: !IsTemp(n) ==> Durable(now, n) == Latest(before, requests, outcomes[..|outcomes| - 1], n)
    requires var q := requests[|outcomes| - 1];
             !IsTemp(q.final) && CrashSafe(now, disk, q.final, {Durable(now, q.final), Some(q.content)})
    ensures forall keep, garbage, n :: |keep| == |disk.pending| && !IsTemp(n) ==>
              Explained(before, requests, outcomes, n, Found(AfterCrash(disk, keep, garbage), n))
  {
    hide AfterCrash, Durable, Found;
    var q := requests[|outcomes| - 1];
    forall keep, garbage, n | |keep| == |disk.pending| && !IsTemp(n)
      ensures Explained(before, requests, outcomes, n, Found(AfterCrash(disk, keep, garbage), n))
    {
      assert SafeOutcome(now, AfterCrash(disk, keep, garbage), q.final, {Durable(now, q.final), Some(q.content)});
    }
  }

  lemma QuietExplained(before: Disk, disk: Disk, requests: seq<Request>, outcomes: seq<Outcome>)
    requires |outcomes| <= |requests| && Quiet(disk)
    requires forall n :: !IsTemp(n) ==> Durable(disk, n) == Latest(before, requests, outcomes, n)
    ensures forall keep, garbage, n :: |keep| == |disk.pending| && !IsTemp(n) ==>
              Explained(before, requests, outcomes, n, Found(AfterCrash(disk, keep, garbage), n))
  {
    hide AfterCrash, Durable, Found, Quiet, Latest;
    forall keep, garbage, n | |keep| == |disk.pending| && !IsTemp(n)
      ensures Explained(before, requests, outcomes, n, Found(AfterCrash(disk, keep, garbage), n))
    {
      QuietCrash(disk, keep, garbage, n);
    }
  }

  // ---- after the crash ----

  const MAX_RECORDS := 4096

  predicate IsRecordName(name: string) {
    |name| >= 5 && name[|name| - 5..] == ".json" && |name| <= 517
  }

  /** An entry inspection cannot read as a record: a leftover temporary, a strange name, or bytes that do not decode. */
  predicate IsInvalid(journal: map<string, Content>, decodes: (string, Content) -> bool, name: string)
    requires name in journal
  {
    IsTemp(name) || !IsRecordName(name) || !decodes(name, journal[name])
  }

  /** `_inspect_journal_fd`: sort the entries into records and invalid ones. */
  method Inspect(journal: map<string, Content>, decodes: (string, Content) -> bool)
    returns (records: set<string>, invalid: set<string>)
    ensures records + invalid == journal.Keys && records !! invalid
    ensures forall n :: n in invalid <==> n in journal && IsInvalid(journal, decodes, n)
  {
    records, invalid := {}, {};
    var names := journal.Keys;
    while names != {}
      invariant names <= journal.Keys && records + invalid == journal.Keys - names && records !! invalid
      invariant forall n :: n in invalid ==> IsInvalid(journal, decodes, n)
      invariant forall n :: n in records ==> !IsInvalid(journal, decodes, n)
    {
      var n :| n in names;
      names := names - {n};
      if IsInvalid(journal, decodes, n) { invalid := invalid + {n}; } else { records := records + {n}; }
    }
  }

  /** `claim_intent` goes ahead only on a journal without invalid entries, with room, and without the name. */
  method ClaimAllowed(journal: map<string, Content>, decodes: (string, Content) -> bool, name: string)
    returns (ok: bool)
    ensures ok <==> && |journal| < MAX_RECORDS && name !in journal
                    && forall n :: n in journal ==>
                         && 5 <= |n| <= 517 && n[|n| - 5..] == ".json" && !(".tmp-" <= n)
                         && decodes(n, journal[n])
  {
    var records, invalid := Inspect(journal, decodes);
    if invalid == {} { assert records == journal.Keys; }
    ok := invalid == {} && |records| < MAX_RECORDS && name !in journal;
  }

  /** A crash during publication is either reported as an incomplete publication, which blocks new claims,
      or leaves every record whole: the published one old or new, all others as they were. */
  lemma CrashReported(before: Disk, disk: Disk, final: string, content: Content, keep: seq<bool>,
                      garbage: map<Inode, Content>, n: string)
    requires CrashSafe(before, disk, final, {Durable(before, final), Some(content)}) && |keep| == |disk.pending|
    requires n in AfterCrash(disk, keep, garbage)
    ensures var journal := AfterCrash(disk, keep, garbage);
            || IsTemp(n)
            || (n == final && (Some(journal[n]) == Durable(before, final) || journal[n] == content))
            || Some(journal[n]) == Durable(before, n)
  {
    assert SafeOutcome(before, AfterCrash(disk, keep, garbage), final, {Durable(before, final), Some(content)});
  }
}
