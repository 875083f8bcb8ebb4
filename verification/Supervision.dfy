/** A session and its hosted run share one lock: what each lock section does to both, and what
    therefore holds whenever the lock is free. */
module Supervision {
  import opened Options
  import HostedRun
  import Hosting
  import Sessions

  /** The run committed a submission and its cleanup is confirmed. */
  predicate Usable(r: HostedRun.Run) {
    r.phase.Finished? && r.outcome == Some(HostedRun.Submitted) && r.teardown.Succeeded?
  }

  /** What the session knows of its run. */
  function Shown(r: HostedRun.Run): Sessions.Hosted {
    if r.phase.Finished? then Sessions.Over(Usable(r)) else Sessions.Going
  }

  /** The session has a prepared artifact, or is making one, and is not ending. */
  predicate Advanced(p: Sessions.Phase) {
    2 <= Sessions.Rank(p) < 8
  }

  ghost predicate Coupled(s: Sessions.State, h: Hosting.State, authoring: bool) {
    && (authoring <==> s.phase.Authoring?)
    && (h.tool <==> s.slot.Tool?)
    && s.hosted == Shown(h.run)
    && (s.phase.Submitted? ==> h.run.submission.Some?) && !s.phase.Open?
    && (Advanced(s.phase) ==> Usable(h.run))
    && (s.cleanup.Some? ==> h.cancelReason.Some? || h.run.phase.Finished?)
  }

  /** The prepared source is the submitted one. */
  predicate Matches(prepared: Option<nat>, r: HostedRun.Run) {
    r.submission.Some? && prepared == Some(r.submission.value.sourceHash)
  }

  datatype Step =
    | StartsRun(budget: HostedRun.Budget)
    | Hosted(step: Hosting.Step)
    | Creates(ordinary: bool) | Finishes(id: nat) | Forgets
    | CleansUp(reason: string) | CleanupReports(complete: bool) | Releases
    | Prepares | Prepared(sourceHash: Option<nat>) | Moves(move: Sessions.Move)

  class Supervised {
    const session: Sessions.SessionState
    var run: Hosting.HostedSession?
    /** The source hash of the prepared artifact. */
    var prepared: Option<nat>

    ghost predicate Valid()
      reads this, session, run
    {
      && session.Valid()
      && (run == null ==> session.state.hosted.NoRun? && !session.state.slot.Tool?)
      && (run != null ==> run.Valid() && Coupled(session.state, run.state, run.authoring))
      && (run != null && Sessions.Rank(session.state.phase) in {3, 4, 5, 6, 7} ==> Matches(prepared, run.state.run))
    }

    ghost function Committed(): Option<HostedRun.Submission>
      reads this, run
    {
      if run == null then None else run.state.committed
    }

    /** One lock section: the session advances, its run stays the same one, and once the session is
        being cleaned up nothing more is submitted. */
    twostate predicate Follows()
      reads this, session, run
    {
      && Sessions.Advances(old(session.state), session.state)
      && (old(run) != null ==> run == old(run))
      && (run != null && old(run) == null ==> fresh(run))
      && (old(session.state.cleanup.Some? || Committed().Some?) ==> Committed() == old(Committed()))
      && (old(Sessions.Rank(session.state.phase)) >= 3 ==> prepared == old(prepared))
    }

    constructor (retention: nat, authoring: bool)
      ensures Valid() && fresh(session) && run == null && session.state.cleanup.None?
    {
      session := new Sessions.SessionState(retention, authoring);
      run, prepared := null, None;
    }

    /** `_op_agent_start`. */
    method StartRun(budget: HostedRun.Budget)
      requires Valid()
      modifies this, session
      ensures Valid() && Follows()
      ensures run != null <==> old(run != null || (session.state.phase.Authoring? && session.state.slot.Free?))
    {
      if run == null && session.state.phase.Authoring? && session.state.slot.Free? {
        session.StartRun();
        run := new Hosting.HostedSession(budget);
      }
    }

    /** A tool of the run borrows the session's one slot, or gives it back. */
    method ToolStep(step: Hosting.Step)
      requires Valid() && (step.ToolBegins? || step.ToolEnds?)
      modifies session, run
      ensures Valid() && Follows()
    {
      if run == null { return; }
      run.Step(if step.ToolBegins? then Hosting.ToolBegins(session.state.slot.Free?) else step);
      if step.ToolEnds? {
        session.ReturnSlot();
      } else if run.state.tool {
        session.BorrowSlot();
      }
    }

    /** Any other lock section of the run: what it adopts or ends, the session shows at once. */
    method HostStep(step: Hosting.Step)
      requires Valid() && !step.SessionCloses? && !step.ToolBegins? && !step.ToolEnds?
      modifies session, run
      ensures Valid() && Follows()
    {
      if run == null { return; }
      run.Step(step);
      if session.state.phase.Authoring? && !run.authoring { session.AdoptSubmission(); }
      if run.state.run.phase.Finished? { session.RunEnds(Usable(run.state.run)); }
    }

    /** `_cleanup_operation`: the first call closes the session and cancels its run. */
    method Cleanup(reason: string)
      requires Valid()
      modifies session, run
      ensures Valid() && Follows() && session.state.cleanup.Some?
      ensures run != null ==> run.state.cancelReason.Some? || run.state.run.phase.Finished?
    {
      var first := session.state.cleanup.None?;
      var id := session.Cleanup(reason);
      if first && run != null {
        run.CloseAuthoring();
        run.Cancel(reason);
      }
    }

    method Release()
      requires Valid()
      modifies session, run
      ensures Valid() && Follows() && Sessions.Ending(session.state.phase)
    {
      session.ReleaseBegins();
      if run != null { run.CloseAuthoring(); }
    }

    /** `session.prepare`: only after a run that submitted and is cleaned up, if there was one. */
    method Prepare()
      requires Valid()
      modifies session
      ensures Valid() && Follows()
      ensures run != null && session.state.phase.Preparing? ==>
                Usable(run.state.run) && Committed() == run.state.run.submission
      ensures run == old(run) && prepared == old(prepared)
      ensures old(Sessions.Rank(session.state.phase) <= 1 && session.state.slot.Free?
                  && (session.state.hosted.NoRun? || session.state.hosted == Sessions.Over(true))) ==>
                session.state == old(session.state).(phase := Sessions.Preparing)
    {
      session.Move(Sessions.Prepare);
    }

    /** The backend is done preparing; with a run, its source has to be the committed one. */
    method Done(sourceHash: Option<nat>)
      requires Valid()
      modifies session, `prepared
      ensures Valid() && Follows()
      ensures session.state != old(session.state) ==> session.state.phase.Prepared? && prepared == sourceHash
      ensures run == old(run)
      ensures old(session.state.phase.Preparing? && (run == null || Matches(sourceHash, run.state.run))) ==>
                session.state == old(session.state).(phase := Sessions.Prepared) && prepared == sourceHash
    {
      if run != null && !Matches(sourceHash, run.state.run) { return; }
      if session.state.phase.Preparing? { prepared := sourceHash; }
      session.Move(Sessions.PrepareDone);
    }

    /** A session whose run submitted and was cleaned up is prepared with that source and goes on to running. */
    method GoesOn()
      requires Valid() && run != null && session.state.phase.Submitted? && session.state.slot.Free?
      requires run.state.run.phase.Finished? && run.state.run.outcome == Some(HostedRun.Submitted)
      requires run.state.run.teardown.Succeeded?
      modifies this, session
      ensures Valid() && Follows() && session.state.phase.Running?
      ensures Committed().Some? && prepared == Some(Committed().value.sourceHash)
    {
      Prepare();
      Done(Some(run.state.run.submission.value.sourceHash));
      session.Move(Sessions.Authorize);
      session.Move(Sessions.Acquire);
      session.Move(Sessions.Launch);
      session.Move(Sessions.WorkerReady);
    }

    method Step(step: Step)
      requires Valid()
      modifies this, session, run
      ensures Valid() && Follows()
    {
      match step
      case StartsRun(budget) => StartRun(budget);
      case Hosted(inner) =>
        if inner.ToolBegins? || inner.ToolEnds? { ToolStep(inner); } else if !inner.SessionCloses? { HostStep(inner); }
      case Creates(ordinary) => var id := session.NewOperation(ordinary);
      case Finishes(id) => session.Finish(id);
      case Forgets => session.Forget();
      case CleansUp(reason) => Cleanup(reason);
      case CleanupReports(complete) =>
        if session.state.cleanup.Some? && session.state.phase.Closing? { session.CleanupEnds(complete); }
      case Releases => Release();
      case Prepares => Prepare();
      case Prepared(sourceHash) => Done(sourceHash);
      case Moves(move) => if !move.Prepare? && !move.PrepareDone? { session.Move(move); }
    }

    /** Whatever the threads of session and run do: a session that goes past a hosted run has its one
        committed submission and prepared that source, and once its cleanup exists no source is committed. */
    method Interleave(steps: seq<Step>)
      requires Valid()
      modifies this, session, run
      ensures Valid() && Follows()
      ensures run != null && Advanced(session.state.phase) ==>
                && HostedRun.ValidRun(run.state.run) && run.state.run.phase.Finished?
                && run.state.run.teardown.Succeeded?
                && run.state.run.outcome == Some(HostedRun.Submitted)
                && Committed().Some? && run.state.run.submission == Committed()
      ensures old(run) != null ==> run == old(run)
      ensures old(session.state.cleanup.Some? || Committed().Some?) ==> Committed() == old(Committed())
      ensures old(Sessions.Rank(session.state.phase)) >= 3 ==> prepared == old(prepared)
      ensures run != null && Advanced(session.state.phase) && !session.state.phase.Preparing? ==>
                Committed().Some? && prepared == Some(Committed().value.sourceHash)
      ensures run != null && session.state.cleanup.Some? && run.state.tool ==> run.state.told
    {
      for i := 0 to |steps|
        invariant Valid() && Follows()
      {
        Step(steps[i]);
      }
    }
  }
}
