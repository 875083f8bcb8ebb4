/** How one attempt accounts for every record of its snapshot. */
module RecoveryResults {
  import opened RecoveryTree
  import opened RecoveryRecords
  import opened RecoveryPlan
  import opened RecoverySafety

  ghost predicate Touches(journal: Journal, next: Journal, id: string) {
    journal.Keys == next.Keys && forall x :: x in journal && x != id ==> next[x] == journal[x]
  }

  ghost predicate Stepped(journal: Journal, next: Journal, id: string) {
    Advances(journal, next) && Touches(journal, next, id)
  }

  lemma SteppedChain(a: Journal, b: Journal, c: Journal, id: string)
    requires Stepped(a, b, id) && Stepped(b, c, id)
    ensures Stepped(a, c, id)
  {}

  /** The item is about the record, and says recovered only of a reclaimed one. */
  ghost predicate Reports(r: Record, item: Item, journal: Journal) {
    && item.id == r.id && item.session == r.session && item.kind == r.kind
    && r.id in journal && (item.disposition.Recovered? ==> journal[r.id].phase.Reclaimed?)
  }

  /** A claim the attempt may try to remove: ours, open, and found. */
  predicate Plannable(tree: Tree, r: Record) {
    && IsClaim(r) && r.owned && !Terminal(r.phase) && (r.phase.RetainedByPolicy? ==> r.recoverable)
    && Publishable(r) && Locate(tree, r).At?
  }

  // ---- the snapshot ----

  ghost predicate DistinctRecords(rs: seq<Record>) {
    forall i, j :: 0 <= i < j < |rs| ==> rs[i].id != rs[j].id
  }

  /** The records of the journal, each once, in any order with the cgroups first. */
  ghost predicate Snapshot(journal: Journal, records: seq<Record>) {
    && DistinctRecords(records)
    && (forall id :: id in journal ==> journal[id] in records)
    && (forall i :: 0 <= i < |records| ==> records[i].id in journal && journal[records[i].id] == records[i])
    && (forall i, j :: 0 <= i < j < |records| && records[j].kind.Cgroup? ==> records[i].kind.Cgroup?)
  }

  function Set(rs: seq<Record>): set<Record> {
    set r | r in rs
  }

  // ---- results so far ----

  ghost predicate DistinctItems(items: seq<Item>) {
    forall i, j :: 0 <= i < j < |items| ==> items[i].id != items[j].id
  }

  ghost predicate HasResult(r: Record, items: seq<Item>, journal: Journal) {
    exists k :: 0 <= k < |items| && Reports(r, items[k], journal)
  }

  ghost predicate AllRecovered(items: seq<Item>) {
    forall k :: 0 <= k < |items| ==> items[k].disposition.Recovered?
  }

  ghost predicate OneRecordEach(all: set<Record>) {
    forall a, b :: a in all && b in all && a.id == b.id ==> a == b
  }

  ghost predicate Standing(open: set<Record>, journal: Journal) {
    forall r :: r in open ==> r.id in journal && journal[r.id] == r
  }

  ghost predicate Unreported(open: set<Record>, items: seq<Item>) {
    forall r, k :: r in open && 0 <= k < |items| ==> r.id != items[k].id
  }

  /** Of the snapshot `all`, the records in `open` are untouched and unreported; every other one has
      its one result, unless some result already says the attempt did not recover everything. */
  ghost predicate Accounted(journal: Journal, all: set<Record>, open: set<Record>, items: seq<Item>) {
    && open <= all && OneRecordEach(all) && DistinctItems(items)
    && Standing(open, journal) && Unreported(open, items)
    && AllReport(all, items, journal)
    && (AllRecovered(items) ==> AllCovered(all - open, items, journal))
  }

  lemma ReportsLater(r: Record, item: Item, journal: Journal, next: Journal)
    requires Reports(r, item, journal) && Advances(journal, next)
    ensures Reports(r, item, next)
  {}

  lemma HasResultLater(r: Record, items: seq<Item>, journal: Journal, more: seq<Item>, next: Journal)
    requires HasResult(r, items, journal) && Advances(journal, next)
    ensures HasResult(r, items + more, next)
  {
    var k :| 0 <= k < |items| && Reports(r, items[k], journal);
    assert Reports(r, (items + more)[k], next);
  }

  /** Every item is about some record of `about`. */
  ghost predicate AllReport(about: set<Record>, items: seq<Item>, journal: Journal) {
    forall k :: 0 <= k < |items| ==> ReportsOne(about, items[k], journal)
  }

  ghost predicate ReportsOne(about: set<Record>, item: Item, journal: Journal) {
    exists r :: r in about && Reports(r, item, journal)
  }

  ghost predicate AllCovered(about: set<Record>, items: seq<Item>, journal: Journal) {
    forall r :: r in about ==> HasResult(r, items, journal)
  }

  lemma ApartMore(all: set<Record>, open: set<Record>, items: seq<Item>, closed: set<Record>, more: seq<Item>,
                  next: Journal)
    requires open <= all && OneRecordEach(all) && DistinctItems(items) && Unreported(open, items)
    requires closed <= open && DistinctItems(more) && AllReport(closed, more, next)
    ensures DistinctItems(items + more) && Unreported(open - closed, items + more)
  {
    hide Reports;
    forall k | 0 <= k < |more| ensures exists r :: r in closed && r.id == more[k].id {
      var r :| r in closed && Reports(r, more[k], next);
      ReportsId(r, more[k], next);
    }
  }

  lemma ReportsId(r: Record, item: Item, journal: Journal)
    requires Reports(r, item, journal)
    ensures r.id == item.id
  {}

  lemma ReportMore(journal: Journal, next: Journal, all: set<Record>, items: seq<Item>, more: seq<Item>)
    requires AllReport(all, items, journal) && AllReport(all, more, next) && Advances(journal, next)
    ensures AllReport(all, items + more, next)
  {
    hide Advances;
    var both := items + more;
    forall k | 0 <= k < |both| ensures ReportsOne(all, both[k], next) {
      if k < |items| {
        assert both[k] == items[k];
        var r :| r in all && Reports(r, items[k], journal);
        ReportsLater(r, items[k], journal, next);
      } else {
        var j := k - |items|;
        assert both[k] == more[j];
        var r :| r in all && Reports(r, more[j], next);
      }
    }
  }

  lemma CoverMore(journal: Journal, next: Journal, all: set<Record>, open: set<Record>, items: seq<Item>,
                  closed: set<Record>, more: seq<Item>)
    requires AllCovered(all - open, items, journal) && AllCovered(closed, more, next) && Advances(journal, next)
    ensures AllCovered(all - (open - closed), items + more, next)
  {
    hide Reports, Advances;
    forall r | r in all && r !in open - closed ensures HasResult(r, items + more, next) {
      if r in closed {
        var k :| 0 <= k < |more| && Reports(r, more[k], next);
        assert (items + more)[|items| + k] == more[k];
      } else {
        HasResultLater(r, items, journal, more, next);
      }
    }
  }

  /** Items about closed records, each once, are appended. */
  lemma AccountMore(journal: Journal, next: Journal, all: set<Record>, open: set<Record>, items: seq<Item>,
                    closed: set<Record>, more: seq<Item>)
    requires Accounted(journal, all, open, items) && Advances(journal, next) && closed <= open && DistinctItems(more)
    requires forall r :: r in open - closed ==> next[r.id] == journal[r.id]
    requires AllReport(closed, more, next) && (AllRecovered(more) ==> AllCovered(closed, more, next))
    ensures Accounted(next, all, open - closed, items + more)
  {
    ApartMore(all, open, items, closed, more, next);
    forall k | 0 <= k < |more| ensures ReportsOne(all, more[k], next) { assert ReportsOne(closed, more[k], next); }
    ReportMore(journal, next, all, items, more);
    hide Reports, HasResult, DistinctItems, OneRecordEach, Unreported;
    if AllRecovered(items + more) {
      AllRecoveredParts(items, more);
      CoverMore(journal, next, all, open, items, closed, more);
    }
  }

  lemma AllRecoveredParts(items: seq<Item>, more: seq<Item>)
    requires AllRecovered(items + more)
    ensures AllRecovered(items) && AllRecovered(more)
  {
    assert forall k :: 0 <= k < |items| ==> (items + more)[k] == items[k];
    forall k | 0 <= k < |more| ensures more[k].disposition.Recovered? { assert (items + more)[|items| + k] == more[k]; }
  }

  lemma AccountOne(journal: Journal, next: Journal, all: set<Record>, open: set<Record>, items: seq<Item>, r: Record,
                   item: Item)
    requires Accounted(journal, all, open, items) && Stepped(journal, next, r.id) && r in open && Reports(r, item, next)
    ensures Accounted(next, all, open - {r}, items + [item])
  {
    assert HasResult(r, [item], next) by { assert Reports(r, [item][0], next); }
    AccountMore(journal, next, all, open, items, {r}, [item]);
  }

  /** A complete account in which every item says recovered closes the whole snapshot. */
  lemma ConfirmedCloses(journal: Journal, all: set<Record>, items: seq<Item>)
    requires Accounted(journal, all, {}, items) && AllRecovered(items)
    ensures forall r :: r in all ==> r.id in journal && journal[r.id].phase.Reclaimed?
  {
    forall r | r in all ensures r.id in journal && journal[r.id].phase.Reclaimed? {
      assert r in all - {};
      var k :| 0 <= k < |items| && Reports(r, items[k], journal);
    }
  }

  // ---- the first pass ----

  /** Records from `n` on are open; the open ones before are the plans. */
  ghost predicate Reviewed(tree: Tree, records: seq<Record>, n: nat, open: set<Record>, plans: seq<Record>) {
    && n <= |records| && DistinctRecords(records)
    && (forall i :: n <= i < |records| ==> records[i] in open && records[i] !in plans)
    && (forall p :: p in plans ==> p in open && Plannable(tree, p))
    && Distinct(plans)
    && (forall r :: r in open ==> r in plans || exists i :: n <= i < |records| && records[i] == r)
  }

  lemma ReviewStart(journal: Journal, tree: Tree, records: seq<Record>)
    requires Snapshot(journal, records)
    ensures Accounted(journal, Set(records), Set(records), []) && Reviewed(tree, records, 0, Set(records), [])
  {
    var all := Set(records);
    forall a, b | a in all && b in all && a.id == b.id ensures a == b {
      var i :| 0 <= i < |records| && records[i] == a;
      var j :| 0 <= j < |records| && records[j] == b;
      assert i == j;
    }
  }

  lemma ReviewPlan(tree: Tree, records: seq<Record>, n: nat, open: set<Record>, plans: seq<Record>)
    requires n < |records| && Reviewed(tree, records, n, open, plans) && Plannable(tree, records[n])
    ensures Reviewed(tree, records, n + 1, open, plans + [records[n]])
  {
    forall r | r in open ensures r in plans + [records[n]] || exists i :: n + 1 <= i < |records| && records[i] == r {
      if r !in plans {
        var i :| n <= i < |records| && records[i] == r;
      }
    }
  }

  lemma ReviewOutcome(tree: Tree, records: seq<Record>, n: nat, open: set<Record>, plans: seq<Record>)
    requires n < |records| && Reviewed(tree, records, n, open, plans)
    ensures Reviewed(tree, records, n + 1, open - {records[n]}, plans)
  {
    forall r | r in open - {records[n]} ensures r in plans || exists i :: n + 1 <= i < |records| && records[i] == r {
      if r !in plans {
        var i :| n <= i < |records| && records[i] == r;
      }
    }
  }
}
