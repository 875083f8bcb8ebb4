/** The receipt of an attempt: what its checks demand, when they accept, and what a
    confirmed status means. */
module RecoveryReceipt {
  import opened Options
  import opened RecoveryRecords
  import opened RecoverySafety
  import opened RecoveryResults

  const MAX_RESULTS := 4096
  const MAX_ID := 128

  predicate IsAlphanumeric(c: char) {
    'a' <= c <= 'z' || 'A' <= c <= 'Z' || '0' <= c <= '9'
  }

  predicate IsIdChar(c: char) {
    IsAlphanumeric(c) || c == '.' || c == '_' || c == '-'
  }

  /** What the receipt accepts as an identifier. */
  predicate ReceiptId(s: string) {
    0 < |s| <= MAX_ID && IsAlphanumeric(s[0]) && forall i :: 0 <= i < |s| ==> IsIdChar(s[i])
  }

  /** What the journal accepts as an identifier. */
  predicate JournalId(s: string) {
    0 < |s| <= MAX_ID && s[0] != '.' && forall i :: 0 <= i < |s| ==> IsIdChar(s[i])
  }

  /** The same in ASCII codes: a letter or digit, then letters, digits, dots, underscores and hyphens. */
  lemma ReceiptIdMeans(s: string)
    ensures ReceiptId(s) <==>
              && 1 <= |s| <= 128
              && (48 <= s[0] as int <= 57 || 65 <= s[0] as int <= 90 || 97 <= s[0] as int <= 122)
              && forall i :: 0 <= i < |s| ==>
                   var c := s[i] as int;
                   48 <= c <= 57 || 65 <= c <= 90 || 97 <= c <= 122 || c == 45 || c == 46 || c == 95
  {
    forall i | 0 <= i < |s|
      ensures IsAlphanumeric(s[i]) <==> var c := s[i] as int; 48 <= c <= 57 || 65 <= c <= 90 || 97 <= c <= 122
      ensures IsIdChar(s[i]) <==> var c := s[i] as int;
              48 <= c <= 57 || 65 <= c <= 90 || 97 <= c <= 122 || c == 45 || c == 46 || c == 95
    {}
  }

  /** The journal also admits a leading underscore or hyphen. */
  lemma JournalIdAccepted(s: string)
    ensures JournalId(s) <==>
              (ReceiptId(s)
               || (1 <= |s| <= 128 && (s[0] == '_' || s[0] == '-') && forall i :: 0 <= i < |s| ==> IsIdChar(s[i])))
    ensures JournalId(s) ==> (ReceiptId(s) <==> s[0] != '_' && s[0] != '-')
  {}

  // ---- the payload ----

  /** Kinds and reasons are fixed lower-case words, so only the two names can be refused. */
  datatype Row = Row(id: string, session: string, kind: Kind, result: Disposition, reason: Option<Reason>)

  datatype Status = Confirmed | Unproven | Broken

  datatype Payload = Payload(rows: seq<Row>, remaining: seq<string>, ownership: seq<Disposition>, status: Status)

  predicate IsRemaining(d: Disposition) {
    d.Doubtful? || d.Failed? || d.Unconfirmed?
  }

  function RowOf(item: Item): Row {
    Row(item.id, item.session, item.kind, item.disposition, item.reason)
  }

  function Rows(items: seq<Item>): (rows: seq<Row>)
    ensures |rows| == |items| && forall i :: 0 <= i < |items| ==> rows[i] == RowOf(items[i])
  {
    seq(|items|, i requires 0 <= i < |items| => RowOf(items[i]))
  }

  function Remaining(rows: seq<Row>): seq<string> {
    if rows == [] then []
    else
      var rest, last := Remaining(rows[..|rows| - 1]), rows[|rows| - 1];
      if IsRemaining(last.result) then rest + [last.id] else rest
  }

  function Ownership(rows: seq<Row>): seq<Disposition> {
    seq(|rows|, i requires 0 <= i < |rows| => rows[i].result)
  }

  /** `_cleanup_status`. */
  function CleanupStatus(rows: seq<Row>, remaining: seq<string>): Status {
    if exists i :: 0 <= i < |rows| && rows[i].result.Failed? then Broken
    else if rows == [] || remaining != []
         || exists i :: 0 <= i < |rows|
                        && (rows[i].result.Doubtful? || rows[i].result.Unconfirmed? || rows[i].result.Retained?)
                           then Unproven
    else Confirmed
  }

  predicate RowOk(row: Row) {
    ReceiptId(row.id) && ReceiptId(row.session)
  }

  /** Closed rows, each resource once. */
  ghost predicate RowsOk(rows: seq<Row>) {
    && |rows| <= MAX_RESULTS
    && (forall i :: 0 <= i < |rows| ==> RowOk(rows[i]))
    && (forall i, j :: 0 <= i < j < |rows| ==> rows[i].id != rows[j].id)
  }

  /** `_results`: one pass with the identifiers seen so far. */
  method CheckRows(rows: seq<Row>) returns (ok: bool)
    ensures ok <==> RowsOk(rows)
  {
    if |rows| > MAX_RESULTS { return false; }
    var seen: set<string> := {};
    for i := 0 to |rows|
      invariant forall j :: 0 <= j < i ==> RowOk(rows[j])
      invariant forall j, k :: 0 <= j < k < i ==> rows[j].id != rows[k].id
      invariant forall id :: id in seen <==> exists j :: 0 <= j < i && rows[j].id == id
    {
      if !RowOk(rows[i]) || rows[i].id in seen { return false; }
      seen := seen + {rows[i].id};
    }
    ok := true;
  }

  /** What `_validate_payload` demands of the three lists and the status. */
  ghost predicate Coherent(p: Payload) {
    && RowsOk(p.rows) && p.ownership == Ownership(p.rows) && p.remaining == Remaining(p.rows)
    && (forall i, j :: 0 <= i < j < |p.remaining| ==> p.remaining[i] != p.remaining[j])
    && p.status == CleanupStatus(p.rows, p.remaining)
  }

  /** `reclaim` builds its lists from the items of the attempt. */
  function Receipt(items: seq<Item>): Payload {
    var rows := Rows(items);
    Payload(rows, Remaining(rows), Ownership(rows), CleanupStatus(rows, Remaining(rows)))
  }

  // ---- what an attempt's receipt guarantees ----

  lemma {:induction false} NothingRemaining(rows: seq<Row>)
    requires forall i :: 0 <= i < |rows| ==> rows[i].result.Recovered?
    ensures Remaining(rows) == []
  {
    if rows != [] { NothingRemaining(rows[..|rows| - 1]); }
  }

  /** The status says: failed exactly if some item failed, confirmed exactly if there are items and all recovered. */
  lemma StatusMeans(items: seq<Item>)
    ensures Receipt(items).status.Broken? <==> exists k :: 0 <= k < |items| && items[k].disposition.Failed?
    ensures Receipt(items).status.Confirmed? <==> items != [] && AllRecovered(items)
  {
    var rows := Rows(items);
    if k :| 0 <= k < |items| && items[k].disposition.Failed? { assert rows[k].result.Failed?; }
    if AllRecovered(items) { NothingRemaining(rows); }
    if k :| 0 <= k < |items| && !items[k].disposition.Recovered? { assert rows[k].result == items[k].disposition; }
  }

  /** The lists say: of every item what it was about and how it ended, and the names of those that failed or stayed
      in doubt or unconfirmed, in order. `at` gives their places. */
  lemma ListsMean(items: seq<Item>) returns (at: seq<nat>)
    ensures |Receipt(items).rows| == |items| && |Receipt(items).ownership| == |items|
    ensures forall k :: 0 <= k < |items| ==>
              var row := Receipt(items).rows[k];
              && row.id == items[k].id && row.session == items[k].session && row.kind == items[k].kind
              && row.result == items[k].disposition && row.reason == items[k].reason
              && Receipt(items).ownership[k] == items[k].disposition
    ensures |at| == |Receipt(items).remaining| && forall i, j :: 0 <= i < j < |at| ==> at[i] < at[j]
    ensures forall i :: 0 <= i < |at| ==> at[i] < |items| && Receipt(items).remaining[i] == items[at[i]].id
    ensures forall k: nat :: k in at <==>
              k < |items| && (items[k].disposition.Doubtful? || items[k].disposition.Failed?
                              || items[k].disposition.Unconfirmed?)
  {
    at := RemainingPlaces(Rows(items));
  }

  /** The places of the rows that remain, in order. */
  ghost predicate Selects(rows: seq<Row>, at: seq<nat>) {
    && (forall i, j :: 0 <= i < j < |at| ==> at[i] < at[j])
    && (forall i :: 0 <= i < |at| ==> at[i] < |rows| && IsRemaining(rows[at[i]].result))
    && (forall k: nat :: k < |rows| && IsRemaining(rows[k].result) ==> k in at)
  }

  lemma SelectsMore(rows: seq<Row>, rest: seq<nat>)
    requires rows != [] && Selects(rows[..|rows| - 1], rest)
    ensures Selects(rows, if IsRemaining(rows[|rows| - 1].result) then rest + [|rows| - 1] else rest)
  {
    hide IsRemaining;
    var n := |rows| - 1;
    var at := if IsRemaining(rows[n].result) then rest + [n] else rest;
    forall i | 0 <= i < |at| ensures at[i] <= n && IsRemaining(rows[at[i]].result) && (i < |rest| ==> at[i] < n) {
      if i < |rest| { assert rows[..n][rest[i]] == rows[rest[i]]; }
    }
    forall k: nat | k < |rows| && IsRemaining(rows[k].result) ensures k in at {
      if k == n {
        assert at[|rest|] == n;
      } else {
        assert rows[..n][k] == rows[k];
        var i :| 0 <= i < |rest| && rest[i] == k;
        assert at[i] == k;
      }
    }
  }

  lemma {:induction false} RemainingPlaces(rows: seq<Row>) returns (at: seq<nat>)
    ensures Selects(rows, at) && |at| == |Remaining(rows)|
    ensures forall i :: 0 <= i < |at| ==> Remaining(rows)[i] == rows[at[i]].id
  {
    at := [];
    if rows != [] {
      var front, last := rows[..|rows| - 1], rows[|rows| - 1];
      var rest := RemainingPlaces(front);
      assert Remaining(rows) == Remaining(front) + if IsRemaining(last.result) then [last.id] else [];
      hide Remaining, IsRemaining;
      SelectsMore(rows, rest);
      at := if IsRemaining(last.result) then rest + [|rows| - 1] else rest;
    }
  }

  /** An attempt on any records reports something. */
  lemma SomethingReported(journal: Journal, all: set<Record>, items: seq<Item>)
    requires Accounted(journal, all, {}, items) && all != {}
    ensures items != []
  {
    var r :| r in all;
    if AllRecovered(items) {
      assert r in all - {};
      assert HasResult(r, items, journal);
    }
  }

  lemma RemainingHas(rows: seq<Row>, id: string)
    requires id in Remaining(rows)
    ensures exists i :: 0 <= i < |rows| && rows[i].id == id
  {
    var at := RemainingPlaces(rows);
    var k :| 0 <= k < |at| && Remaining(rows)[k] == id;
    assert rows[at[k]].id == id;
  }

  lemma {:induction false} RemainingDistinct(rows: seq<Row>)
    requires forall i, j :: 0 <= i < j < |rows| ==> rows[i].id != rows[j].id
    ensures forall i, j :: 0 <= i < j < |Remaining(rows)| ==> Remaining(rows)[i] != Remaining(rows)[j]
  {
    if rows != [] {
      var front, last := rows[..|rows| - 1], rows[|rows| - 1];
      RemainingDistinct(front);
      assert forall i :: 0 <= i < |front| ==> front[i] == rows[i] && front[i].id != last.id;
      assert Remaining(rows) == Remaining(front) + if IsRemaining(last.result) then [last.id] else [];
      if last.id in Remaining(front) {
        RemainingHas(front, last.id);
        assert false;
      }
    }
  }

  /** An attempt reports no more items than it saw records. */
  lemma {:induction false} NoMoreItems(journal: Journal, all: set<Record>, items: seq<Item>)
    requires OneRecordEach(all) && DistinctItems(items) && AllReport(all, items, journal)
    ensures |items| <= |all|
  {
    if items != [] {
      var front, last := items[..|items| - 1], items[|items| - 1];
      assert ReportsOne(all, last, journal);
      var r :| r in all && Reports(r, last, journal);
      forall k | 0 <= k < |front| ensures ReportsOne(all - {r}, front[k], journal) {
        assert ReportsOne(all, items[k], journal);
        var q :| q in all && Reports(q, items[k], journal);
        assert q != r;
      }
      NoMoreItems(journal, all - {r}, front);
    }
  }

  /** An identifier the journal accepts and the receipt does not. */
  predicate Unreportable(s: string) {
    s != "" && (s[0] == '_' || s[0] == '-')
  }

  lemma RowAccepted(item: Item)
    requires JournalId(item.id) && JournalId(item.session)
    ensures RowOk(RowOf(item)) <==> !Unreportable(item.id) && !Unreportable(item.session)
  {
    JournalIdAccepted(item.id);
    JournalIdAccepted(item.session);
  }

  /** Each record has at most one result; the lists are coherent exactly when every reported name is one
      the receipt can spell; and a confirmed receipt means the whole snapshot is reclaimed. */
  lemma ReceiptSound(journal: Journal, all: set<Record>, items: seq<Item>)
    requires Accounted(journal, all, {}, items) && |all| <= MAX_RESULTS
    requires forall r :: r in all ==> JournalId(r.id) && JournalId(r.session)
    ensures DistinctItems(items)
    ensures Coherent(Receipt(items)) <==>
              forall i :: 0 <= i < |items| ==> !Unreportable(items[i].id) && !Unreportable(items[i].session)
    ensures Receipt(items).status.Confirmed? ==>
              forall r :: r in all ==> r.id in journal && journal[r.id].phase.Reclaimed?
  {
    var rows := Rows(items);
    NoMoreItems(journal, all, items);
    forall i | 0 <= i < |items|
      ensures RowOk(rows[i]) <==> !Unreportable(items[i].id) && !Unreportable(items[i].session)
    {
      assert ReportsOne(all, items[i], journal);
      RowAccepted(items[i]);
    }
    RemainingDistinct(rows);
    if Receipt(items).status.Confirmed? { ConfirmedReclaims(journal, all, items); }
  }

  /** Whatever one attempt reports of a record the receipt cannot spell, its receipt is refused. */
  lemma OneUnreportable(journal: Journal, r: Record, items: seq<Item>)
    requires Accounted(journal, {r}, {}, items) && JournalId(r.id) && JournalId(r.session)
    requires (Unreportable(r.id) || Unreportable(r.session))
    ensures !Coherent(Receipt(items))
  {
    assert r in {r} - {};
    assert AllRecovered(items) ==> HasResult(r, items, journal);
    assert ReportsOne({r}, items[0], journal);
    ReceiptSound(journal, {r}, items);
  }

  /** A record the journal accepts and no receipt can carry. */
  lemma UnderscoreRefused(journal: Journal, r: Record, items: seq<Item>)
    requires r.id == "_a" && r.session == "s" && Accounted(journal, {r}, {}, items)
    ensures JournalId(r.id) && !Coherent(Receipt(items))
  {
    OneUnreportable(journal, r, items);
  }

  predicate Reportable(r: Record) {
    !Unreportable(r.id) && !Unreportable(r.session)
  }

  /** Every attempt on a snapshot gets a coherent receipt if and only if the receipt can spell every name in it. */
  lemma AlwaysCoherent(all: set<Record>)
    requires OneRecordEach(all) && |all| <= MAX_RESULTS
    requires forall r :: r in all ==> JournalId(r.id) && JournalId(r.session)
    ensures (forall journal: Journal, items :: Accounted(journal, all, {}, items) ==> Coherent(Receipt(items))) <==>
              forall r :: r in all ==> Reportable(r)
  {
    hide Accounted, Coherent, JournalId, Unreportable;
    if forall r :: r in all ==> Reportable(r) {
      forall journal: Journal, items | Accounted(journal, all, {}, items) ensures Coherent(Receipt(items)) {
        ItemsReportable(journal, all, items);
        ReceiptSound(journal, all, items);
      }
    } else {
      var r :| r in all && !Reportable(r);
      var items := [ItemOf(r, Doubtful, Some(OwnershipAmbiguous))];
      DoubtAccounted(all, r, items);
      ReceiptSound(map[r.id := r], all, items);
      assert items[0].id == r.id && items[0].session == r.session;
      assert !Coherent(Receipt(items));
    }
  }

  lemma ItemsReportable(journal: Journal, all: set<Record>, items: seq<Item>)
    requires Accounted(journal, all, {}, items) && forall r :: r in all ==> Reportable(r)
    ensures forall i :: 0 <= i < |items| ==> !Unreportable(items[i].id) && !Unreportable(items[i].session)
  {
    forall i | 0 <= i < |items| ensures !Unreportable(items[i].id) && !Unreportable(items[i].session) {
      assert ReportsOne(all, items[i], journal);
      var r :| r in all && Reports(r, items[i], journal);
    }
  }

  lemma DoubtAccounted(all: set<Record>, r: Record, items: seq<Item>)
    requires OneRecordEach(all) && r in all && items == [ItemOf(r, Doubtful, Some(OwnershipAmbiguous))]
    ensures Accounted(map[r.id := r], all, {}, items)
  {
    assert Reports(r, items[0], map[r.id := r]);
    assert ReportsOne(all, items[0], map[r.id := r]);
    assert !AllRecovered(items) by { assert !items[0].disposition.Recovered?; }
  }

  /** The receipt can name every record, and has room for all. */
  ghost predicate Spellable(all: set<Record>) {
    |all| <= MAX_RESULTS && forall r :: r in all ==> ReceiptId(r.id) && ReceiptId(r.session)
  }

  /** Checked rows are all a coherent receipt needs, and those of an attempt on such records pass. */
  lemma ReceiptChecked(journal: Journal, all: set<Record>, items: seq<Item>)
    requires Accounted(journal, all, {}, items)
    ensures RowsOk(Receipt(items).rows) ==> Coherent(Receipt(items))
    ensures Spellable(all) ==> RowsOk(Receipt(items).rows)
  {
    var rows := Rows(items);
    RemainingDistinct(rows);
    NoMoreItems(journal, all, items);
    if Spellable(all) {
      forall i | 0 <= i < |items| ensures RowOk(rows[i]) { assert ReportsOne(all, items[i], journal); }
    }
  }

  lemma ConfirmedReclaims(journal: Journal, all: set<Record>, items: seq<Item>)
    requires Accounted(journal, all, {}, items) && Receipt(items).status.Confirmed?
    ensures forall r :: r in all ==> r.id in journal && journal[r.id].phase.Reclaimed?
  {
    hide Accounted, RowOk;
    var rows := Rows(items);
    forall i | 0 <= i < |items| ensures items[i].disposition.Recovered? {
      assert rows[i].result == items[i].disposition;
    }
    ConfirmedCloses(journal, all, items);
  }
}
