/** The public record of a hosted run: what a client may be shown, the bounded progress
    window, and the changes made to the record under the session lock. */
module HostedRun {
  import opened Options
  import opened Decimals
  import KeyText
  import opened Utf8

  // ---- progress ----

  datatype Line = Line(number: nat, message: string)

  datatype Budget = Budget(records: nat, recordBytes: nat, bytes: nat)

  datatype Progress = Progress(first: nat, next: nat, truncated: bool, lines: seq<Line>)

  /** A line as it is sent, and its size. */
  function LineText(l: Line): string {
    "{\"seq\":" + Numeral(l.number) + ",\"message\":" + KeyText.Quote(l.message) + "}"
  }

  function LineBytes(l: Line): nat {
    TextBytes(LineText(l))
  }

  function TotalBytes(lines: seq<Line>): nat {
    if lines == [] then 0 else LineBytes(lines[0]) + TotalBytes(lines[1..])
  }

  predicate WithinBudget(lines: seq<Line>, budget: Budget) {
    && |lines| <= budget.records
    && (forall i :: 0 <= i < |lines| ==> LineBytes(lines[i]) <= budget.recordBytes)
    && TotalBytes(lines) <= budget.bytes
  }

  /** Where the longest suffix within budget starts. */
  ghost predicate LongestFrom(lines: seq<Line>, budget: Budget, k: nat) {
    k <= |lines| && WithinBudget(lines[k..], budget) && forall j :: 0 <= j < k ==> !WithinBudget(lines[j..], budget)
  }

  /** Numbers without a gap from `first` up to `next`, and the flag for lines lost. */
  predicate Contiguous(p: Progress) {
    && p.first >= 1 && p.next == p.first + |p.lines| && p.truncated == (p.first > 1)
    && forall i :: 0 <= i < |p.lines| ==> p.lines[i].number == p.first + i
  }

  /** The window after one more line: the longest suffix of the old lines and the new one that keeps every budget. */
  ghost predicate Noted(p: Progress, message: string, budget: Budget, q: Progress) {
    && Contiguous(q) && q.next == p.next + 1
    && exists k: nat :: LongestFrom(p.lines + [Line(p.next, message)], budget, k)
                        && q.lines == (p.lines + [Line(p.next, message)])[k..]
  }

  /** `_host_progress_locked`: append, then drop from the front until everything fits. */
  method AddLine(p: Progress, message: string, budget: Budget) returns (q: Progress)
    requires Contiguous(p)
    ensures Noted(p, message, budget, q) && Contiguous(q) && WithinBudget(q.lines, budget)
  {
    var all := p.lines + [Line(p.next, message)];
    var lines := all;
    ghost var k := 0;
    assert all[0..] == all;
    while !WithinBudget(lines, budget)
      invariant k <= |all| && lines == all[k..] && forall j :: 0 <= j < k ==> !WithinBudget(all[j..], budget)
      decreases |lines|
    {
      if lines == [] { NothingFits(budget); }
      lines := lines[1..];
      k := k + 1;
    }
    assert LongestFrom(all, budget, k);
    q := Progress(p.next + 1 - |lines|, p.next + 1, p.next + 1 - |lines| > 1, lines);
    forall i | 0 <= i < |lines| ensures lines[i].number == q.first + i {
      assert lines[i] == all[k + i];
    }
  }

  /** The window after a line, spelt out: numbered without a gap up to the new line, the flag for lines lost, all
      three budgets kept; and one more of the dropped lines would break one of them. */
  lemma NotedMeans(p: Progress, message: string, budget: Budget, q: Progress)
    requires Contiguous(p) && Noted(p, message, budget, q)
    ensures q.first >= 1 && q.next == p.next + 1 == q.first + |q.lines| && (q.truncated <==> q.first > 1)
    ensures forall i :: 0 <= i < |q.lines| ==>
              q.lines[i].number == q.first + i && LineBytes(q.lines[i]) <= budget.recordBytes
    ensures |q.lines| <= budget.records && TotalBytes(q.lines) <= budget.bytes
    ensures q.lines != [] ==> q.lines[|q.lines| - 1].message == message
    ensures q.first > p.first ==>
              var more := (p.lines + [Line(p.next, message)])[q.first - 1 - p.first..];
              || |more| > budget.records || TotalBytes(more) > budget.bytes
              || exists i :: 0 <= i < |more| && LineBytes(more[i]) > budget.recordBytes
  {
    hide LineBytes, TotalBytes;
    var all := p.lines + [Line(p.next, message)];
    var k: nat :| LongestFrom(all, budget, k) && q.lines == all[k..];
    assert k == q.first - p.first;
    if k > 0 { assert !WithinBudget(all[k - 1..], budget); }
  }

  lemma NothingFits(budget: Budget)
    ensures WithinBudget([], budget)
  {}

  // ---- the record ----

  datatype Phase = Starting | Running | Submitting | Cleaning | Finished

  datatype Outcome = Submitted | Failed | Cancelled | TimedOut

  datatype Teardown = NotStarted | Pending | Succeeded | Unconfirmed

  datatype Submission = Submission(id: nat, sourceHash: nat)

  datatype Run = Run(phase: Phase, outcome: Option<Outcome>, submission: Option<Submission>, hasError: bool,
                     teardown: Teardown, remaining: seq<string>, progress: Progress, budget: Budget)

  predicate RemainingOk(names: seq<string>) {
    |names| <= 64 && forall i, j :: 0 <= i < j < |names| ==> names[i] != names[j]
  }

  /** What the protocol demands of a record it shows. */
  predicate ValidRun(r: Run) {
    && RemainingOk(r.remaining)
    && (r.teardown.NotStarted? || r.teardown.Succeeded? ==> r.remaining == [])
    && (r.outcome == Some(Submitted) <==> r.submission.Some?)
    && ((r.outcome.Some? && !r.outcome.value.Submitted?) <==> r.hasError)
    && (match r.phase
        case Cleaning => r.teardown.Pending?
        case Finished => r.teardown.Succeeded? || r.teardown.Unconfirmed?
        case _ => r.teardown.NotStarted?)
    && ((r.phase.Cleaning? || r.phase.Finished?) <==> r.outcome.Some?)
    && Contiguous(r.progress) && WithinBudget(r.progress.lines, r.budget)
  }

  /** In plain words: at most 64 different resources remain, and none while the teardown has not begun or after it
      succeeded; a submission exactly with the outcome submitted, an error exactly with any other; an outcome exactly
      from cleaning on; teardown pending exactly while cleaning and decided exactly once finished; the window of
      progress numbered without a gap and within its budgets. */
  lemma ValidMeans(r: Run)
    requires ValidRun(r)
    ensures |r.remaining| <= 64 && forall i, j :: 0 <= i < j < |r.remaining| ==> r.remaining[i] != r.remaining[j]
    ensures r.teardown.NotStarted? || r.teardown.Succeeded? ==> r.remaining == []
    ensures r.submission.Some? <==> r.outcome == Some(Submitted)
    ensures r.hasError <==> r.outcome.Some? && r.outcome != Some(Submitted)
    ensures r.outcome.Some? <==> r.phase.Cleaning? || r.phase.Finished?
    ensures (r.teardown.Pending? <==> r.phase.Cleaning?)
    ensures (r.teardown.Succeeded? || r.teardown.Unconfirmed? <==> r.phase.Finished?)
    ensures r.progress.first >= 1 && r.progress.next == r.progress.first + |r.progress.lines|
    ensures r.progress.truncated <==> r.progress.first > 1
    ensures |r.progress.lines| <= r.budget.records && TotalBytes(r.progress.lines) <= r.budget.bytes
    ensures forall i :: 0 <= i < |r.progress.lines| ==>
              && r.progress.lines[i].number == r.progress.first + i
              && LineBytes(r.progress.lines[i]) <= r.budget.recordBytes
  {
    hide LineBytes, TotalBytes;
  }

  /** How the host ended. */
  datatype Ending = Ending(reason: string, complete: bool, remaining: seq<string>)

  function NewRun(budget: Budget): (r: Run)
    ensures ValidRun(r)
  {
    Run(Starting, None, None, false, NotStarted, [], Progress(1, 1, false, []), budget)
  }

  /** `_adopt_submission_locked`: a committed submission becomes the outcome of an unfinished run. */
  function Adopt(r: Run, committed: Option<Submission>): (q: Run)
    requires ValidRun(r)
    ensures ValidRun(q) && q.progress == r.progress && q.budget == r.budget
    ensures !r.phase.Finished? && committed.Some? ==> q.submission == committed && q.phase.Cleaning?
    ensures r.phase.Finished? || committed.None? ==> q == r
  {
    if r.phase.Finished? || committed.None? then r
    else r.(submission := committed, outcome := Some(Submitted), hasError := false, phase := Cleaning,
            teardown := Pending, remaining := [])
  }

  /** Why a run that submitted nothing ended. */
  function EndOutcome(reason: string, cancelReason: Option<string>): Outcome {
    if cancelReason == Some("deadline") || reason == "wall_timeout" then TimedOut
    else if cancelReason.Some? || reason == "cancelled" then Cancelled
    else Failed
  }

  /** `_terminal_host` up to the last progress line. */
  function Terminate(r: Run, committed: Option<Submission>, cancelReason: Option<string>, ending: Ending): (q: Run)
    requires ValidRun(r) && RemainingOk(ending.remaining)
    ensures ValidRun(q) && q.phase.Finished? && q.progress == r.progress && q.budget == r.budget
    ensures !r.phase.Finished? ==> q.submission == (if committed.Some? then committed else r.submission)
    ensures r.phase.Finished? ==> q == r
    ensures !r.phase.Finished? ==> (q.teardown.Succeeded? <==> ending.complete && ending.remaining == [])
    ensures r.outcome.Some? && committed.None? ==> q.outcome == r.outcome
    ensures r.outcome.None? && committed.None? ==>
              && (q.outcome == Some(TimedOut) <==> cancelReason == Some("deadline") || ending.reason == "wall_timeout")
              && (q.outcome == Some(Failed) <==>
                    cancelReason.None? && ending.reason != "wall_timeout" && ending.reason != "cancelled")
              && q.outcome != Some(Submitted)
  {
    if r.phase.Finished? then r
    else
      var a := Adopt(r, committed);
      var b := if a.outcome.Some? then a else a.(outcome := Some(EndOutcome(ending.reason, cancelReason)),
                                                 hasError := true);
      var complete := ending.complete && ending.remaining == [];
      b.(phase := Finished, teardown := if complete then Succeeded else Unconfirmed, remaining := ending.remaining)
  }
}
