/** A hosted run under the session lock: the dispatcher, the host thread, the broker's submit
    thread and the cleanup path take turns, in any order. */
module Hosting {
  import opened Options
  import opened HostedRun

  /** The host thread: not yet scheduled, past its first lock section, running the agent, or over. */
  datatype Host = Waiting | Begun | Live | Gone

  /** The broker's submit call: sealing the source, installed, or refused by the backend. */
  datatype Submitter = Idle | Sealing | Sealed | Refused(timedOut: bool)

  /** What the lock protects: the record, the cancel event with its first reason, the two threads,
      whether the agent was ever started, the submission the backend has installed, and whether a tool
      of the run is going on and has been told to stop. */
  datatype State = State(run: Run, cancel: bool, cancelReason: Option<string>, host: Host, submitter: Submitter,
                         launched: bool, committed: Option<Submission>, tool: bool, told: bool)

  /** The run may still use tools or submit. */
  predicate Early(r: Run) {
    r.phase.Starting? || r.phase.Running?
  }

  /** A finished run shows exactly what the backend has committed, and nothing can change that any more. */
  ghost predicate Agrees(s: State) {
    && (s.run.submission.Some? ==> s.run.submission == s.committed)
    && (s.run.phase.Finished? ==> s.run.submission == s.committed)
    && (s.run.phase.Finished? ==> s.cancel || (!s.launched && s.host.Gone?))
  }

  ghost predicate Consistent(s: State) {
    && ValidRun(s.run) && Agrees(s)
    && (!s.launched ==> s.submitter.Idle? && s.committed.None?)
    && (s.host.Live? ==> s.launched) && (s.launched ==> s.host.Live? || (s.host.Gone? && s.cancel))
    && (s.host.Waiting? && !s.cancel ==> s.run.phase.Starting?)
    && (s.submitter.Sealing? || s.submitter.Refused? ==> s.committed.None?)
    && (s.submitter.Sealed? ==> s.committed.Some?)
    && (!s.submitter.Idle? || s.committed.Some? ==> !Early(s.run)) && (s.cancelReason.Some? ==> s.cancel)
    && (s.tool ==> s.launched && (s.told || (Early(s.run) && s.cancelReason.None? && s.host.Live?)))
  }

  /** What has happened to a run, by the steps themselves: the reason of the first cancel that reached it unfinished,
      whether a commit was refused and then whether for lateness, whether that refusal ended the run's hope of an
      outcome, and the reason the host reported at the end. */
  datatype Story = Story(reason: Option<string>, late: Option<bool>, shown: bool, ending: Option<string>)

  function Told(story: Story, s: State, step: Step): Story {
    match step
    case CancelArrives(reason) =>
      if s.run.phase.Finished? || story.reason.Some? then story else story.(reason := Some(reason))
    case BackendCommits(late, stopping, frozen, _) =>
      if s.submitter.Sealing? && (late || stopping || !frozen || s.cancel) then story.(late := Some(frozen && late))
      else story
    case SubmitEnds =>
      if s.submitter.Refused? && s.run.outcome.None? && (story.late == Some(true) || !s.cancel)
      then story.(shown := true) else story
    case Ends(ending) =>
      if !s.run.phase.Finished? && (s.host.Gone? || s.cancelReason.Some?) && RemainingOk(ending.remaining)
      then story.(ending := Some(ending.reason)) else story
    case _ => story
  }

  /** Which thread a step moves, and how: the host thread, the submit call, the installed submission, the cancel
      event and its reason. All else of these stays. */
  ghost predicate Goes(a: State, step: Step, b: State) {
    && (match step
        case HostBegins => b.host == if a.host.Waiting? then if a.cancel then Gone else Begun else a.host
        case HostLaunches(works) => b.host == if a.host.Begun? then if works then Live else Gone else a.host
        case HostReturns => b.host == if a.host.Live? then Gone else a.host
        case _ => b.host == a.host)
    && (match step
        case SubmitBegins => b.submitter == a.submitter || (a.submitter.Idle? && b.submitter.Sealing? && !a.cancel)
        case BackendCommits(late, stopping, frozen, _) =>
          b.submitter == if !a.submitter.Sealing? then a.submitter
                         else if frozen && !late && !stopping && !a.cancel then Sealed else Refused(frozen && late)
        case SubmitEnds => b.submitter == if a.submitter.Sealing? then Sealing else Idle
        case _ => b.submitter == a.submitter)
    && b.committed == (if step.BackendCommits? && a.submitter.Sealing? && b.submitter.Sealed? then Some(step.submission)
                       else a.committed)
    && (b.cancel <==> || a.cancel || (step.CancelArrives? && !a.run.phase.Finished?)
                      || ((step.HostLeaves? || step.HostReturns?) && a.host.Live?)
                      || (step.SubmitEnds? && (a.submitter.Sealed? || a.submitter.Refused?)))
    && (a.cancelReason.Some? && !step.SubmitEnds? ==> b.cancelReason == a.cancelReason)
    && (a.cancelReason.None? && b.cancelReason.Some? ==>
          step == CancelArrives(b.cancelReason.value) || step.SubmitEnds?)
    && (a.cancelReason != b.cancelReason && step.SubmitEnds? ==>
          a.submitter == Refused(true) && b.cancelReason == Some("deadline"))
  }

  /** The story after all the steps, each taken from its own state. */
  ghost function ToldAll(story: Story, trace: seq<State>, steps: seq<Step>): Story
    requires |trace| > |steps|
  {
    if steps == [] then story
    else
      var n := |steps| - 1;
      Told(ToldAll(story, trace, steps[..n]), trace[n], steps[n])
  }

  /** How a run ended that submitted nothing. */
  ghost predicate Explained(outcome: Option<Outcome>, story: Story) {
    && (outcome == Some(TimedOut) <==>
          if story.shown then story.late == Some(true)
          else story.reason == Some("deadline") || story.ending == Some("wall_timeout"))
    && (outcome == Some(Failed) <==>
          if story.shown then story.late != Some(true)
          else story.reason.None? && story.ending != Some("wall_timeout") && story.ending != Some("cancelled"))
    && (outcome == Some(Cancelled) <==>
          && !story.shown && story.reason != Some("deadline") && story.ending != Some("wall_timeout")
          && (story.reason.Some? || story.ending == Some("cancelled")))
  }

  /** The state carries what the story tells. */
  ghost predicate Recounts(s: State, story: Story) {
    && (s.submitter.Refused? ==> story.late == Some(s.submitter.timedOut) && !story.shown)
    && (s.submitter.Idle? && Early(s.run) ==> !story.shown) && (s.submitter.Sealing? ==> !story.shown)
    && (story.shown ==> s.cancel && s.committed.None? && story.late.Some?
                        && s.run.outcome == Some(if story.late.value then TimedOut else Failed))
    && s.cancelReason == (if story.shown && story.late == Some(true) then Some("deadline") else story.reason)
    && (s.run.outcome.Some? && !s.run.outcome.value.Submitted? && !s.run.phase.Finished? ==> story.shown)
    && (s.run.phase.Finished? <==> story.ending.Some?)
    && (s.run.phase.Finished? && s.run.submission.None? ==> Explained(s.run.outcome, story))
  }

  class HostedSession {
    var state: State
    /** The session may still author; a committed submission ends that. */
    var authoring: bool
    ghost var story: Story

    ghost predicate Valid()
      reads this
    {
      Consistent(state) && (state.run.submission.Some? ==> !authoring) && Recounts(state, story)
    }

    /** `_op_agent_start`. */
    constructor (budget: Budget)
      ensures Valid() && state.committed.None? && state.run.phase.Starting? && authoring && !state.tool && !state.cancel
      ensures story == Story(None, None, false, None)
    {
      hide Consistent, Recounts, Explained, ValidRun, Noted;
      var progress := AddLine(Progress(1, 1, false, []), "Managed authoring accepted", budget);
      NewConsistent(budget, progress);
      state := State(NewRun(budget).(progress := progress), false, None, Waiting, Idle, false, None, false, false);
      authoring, story := true, Story(None, None, false, None);
    }

    /** One progress line, the rest of the record untouched. */
    method Note(message: string)
      requires Valid()
      modifies `state
      ensures Valid() && state == old(state).(run := state.run)
      ensures state.run == old(state).run.(progress := state.run.progress)
      ensures Noted(old(state).run.progress, message, state.run.budget, state.run.progress)
    {
      var progress := AddLine(state.run.progress, message, state.run.budget);
      state := state.(run := state.run.(progress := progress));
    }

    /** `_adopt_submission_locked`. */
    method AdoptLocked()
      requires Valid()
      modifies `state, `authoring
      ensures Valid() && state == old(state).(run := Adopt(old(state).run, old(state).committed))
      ensures authoring <==> old(authoring) && (state.run.phase.Finished? || state.committed.None?)
    {
      if !state.run.phase.Finished? && state.committed.Some? { authoring := false; }
      state := state.(run := Adopt(state.run, state.committed));
    }

    /** `_cancel_host_locked`: the first reason stays. */
    method Cancel(reason: string)
      requires Valid()
      modifies `state, `authoring, `story
      ensures Valid() && Sticky(old(state), state)
      ensures authoring <==> old(authoring) && (old(state).run.phase.Finished? || old(state).committed.None?)
      ensures old(state).run.phase.Finished? ==> state == old(state)
      ensures !old(state).run.phase.Finished? ==>
                state == old(state).(run := Adopt(old(state).run, old(state).committed), cancel := true, told := true,
                                     cancelReason := if old(state).cancelReason.Some? then old(state).cancelReason
                                                     else Some(reason))
      ensures story == Told(old(story), old(state), CancelArrives(reason))
    {
      if state.run.phase.Finished? { return; }
      AdoptLocked();
      story := Told(story, state, CancelArrives(reason));
      state := state.(cancel := true, told := true, cancelReason := if state.cancelReason.Some? then state.cancelReason
                      else Some(reason));
    }

    // ---- the host thread ----

    /** The first lock section of the host thread. */
    method HostBegin()
      requires Valid() && state.host.Waiting?
      modifies `state
      ensures Valid() && Sticky(old(state), state)
      ensures old(state).cancel ==> state == old(state).(host := Gone)
      ensures !old(state).cancel ==> state == old(state).(host := Begun, run := state.run)
      ensures !old(state).cancel ==> state.run == old(state).run.(phase := Running, progress := state.run.progress)
      ensures !old(state).cancel ==> Noted(old(state).run.progress, "Starting approved agent runtime", state.run.budget,
                                           state.run.progress)
    {
      if state.cancel {
        state := state.(host := Gone);
      } else {
        state := state.(host := Begun, run := state.run.(phase := Running));
        Note("Starting approved agent runtime");
      }
    }

    /** The agent starts, or never does. */
    method Launch(works: bool)
      requires Valid() && state.host.Begun?
      modifies `state
      ensures Valid() && Sticky(old(state), state)
      ensures state == old(state).(host := if works then Live else Gone, launched := works || old(state).launched)
    {
      state := if works then state.(host := Live, launched := true) else state.(host := Gone);
    }

    /** The agent's process ends, which stops any submit not yet committed. */
    method HostExits()
      requires Valid() && state.host.Live?
      modifies `state
      ensures Valid() && Sticky(old(state), state) && state == old(state).(cancel := true)
    {
      state := state.(cancel := true);
    }

    /** The runtime returns only after that, and after telling a tool still going on to stop. */
    method HostStops()
      requires Valid() && state.host.Live?
      modifies `state
      ensures Valid() && Sticky(old(state), state) && state == old(state).(host := Gone, cancel := true, told := true)
    {
      state := state.(host := Gone, cancel := true, told := true);
    }

    // ---- the broker's threads ----

    /** `_host_execute` up to the tool itself; `free` says that no operation of the session holds the slot. */
    method ToolBegin(free: bool) returns (ok: bool)
      requires Valid() && state.launched
      modifies `state
      ensures Valid() && Sticky(old(state), state)
      ensures ok <==> free && !old(state).tool && authoring && !old(state).cancel && Early(old(state).run)
      ensures state == if ok then old(state).(tool := true, told := false) else old(state)
    {
      if !Early(state.run) || state.cancel || !authoring || !free || state.tool { return false; }
      state := state.(tool := true, told := false);
      ok := true;
    }

    /** The tool is over. */
    method ToolEnd()
      requires Valid() && state.tool
      modifies `state
      ensures Valid() && Sticky(old(state), state) && state == old(state).(tool := false)
    {
      state := state.(tool := false);
    }

    /** `_host_submit` up to the call into the backend, whatever other submits are under way: it gives the
        submission there is, seals, or refuses. */
    method SubmitBegin() returns (ok: bool, given: Option<Submission>)
      requires Valid() && state.launched
      modifies `state, `authoring
      ensures Valid() && Sticky(old(state), state)
      ensures ok <==> old(authoring && !state.cancel && Early(state.run))
      ensures ok ==> old(state).submitter.Idle? && old(state).committed.None? && given.None?
      ensures authoring <==> old(authoring) && (old(state).run.phase.Finished? || old(state).committed.None?)
      ensures given == state.run.submission && (given.Some? ==> given == state.committed)
      ensures ok ==> state == old(state).(submitter := Sealing, told := true,
                                          run := old(state).run.(phase := Submitting, progress := state.run.progress))
      ensures ok ==> Noted(old(state).run.progress, "Sealing submission source", state.run.budget, state.run.progress)
      ensures !ok ==> state == old(state).(run := Adopt(old(state).run, old(state).committed))
    {
      AdoptLocked();
      if state.run.submission.Some? { return false, state.run.submission; }
      if !Early(state.run) || state.cancel || !authoring { return false, None; }
      state := state.(submitter := Sealing, told := true, run := state.run.(phase := Submitting));
      Note("Sealing submission source");
      ok, given := true, None;
    }

    /** The backend's commit: one lock section that installs the submission or refuses. `late` is the
        deadline; `stopping` is the backend's own closing or cleanup. */
    method Commit(late: bool, stopping: bool, frozen: bool, submission: Submission)
      requires Valid() && state.submitter.Sealing?
      modifies `state, `story
      ensures Valid() && Sticky(old(state), state)
      ensures state.committed.Some? <==> frozen && !late && !stopping && !old(state).cancel
      ensures state.committed.Some? ==> state == old(state).(committed := Some(submission), submitter := Sealed)
                                        && !state.run.phase.Finished?
      ensures state.committed.None? ==> state == old(state).(submitter := Refused(frozen && late))
      ensures story == Told(old(story), old(state), BackendCommits(late, stopping, frozen, submission))
    {
      story := Told(story, state, BackendCommits(late, stopping, frozen, submission));
      if frozen && !late && !stopping && !state.cancel {
        state := state.(committed := Some(submission), submitter := Sealed);
      } else {
        state := state.(submitter := Refused(frozen && late));
      }
    }

    /** After a successful commit. */
    method SubmitDone()
      requires Valid() && state.submitter.Sealed?
      modifies `state, `authoring
      ensures Valid() && Sticky(old(state), state)
      ensures authoring <==> old(authoring) && (old(state).run.phase.Finished? || old(state).committed.None?)
      ensures state == old(state).(run := state.run, cancel := true, submitter := Idle)
      ensures !old(state).run.phase.Finished? ==>
                && state.run == Adopt(old(state).run, old(state).committed).(progress := state.run.progress)
                && Noted(old(state).run.progress, "Submission source committed", state.run.budget, state.run.progress)
    {
      AdoptLocked();
      if !state.run.phase.Finished? {
        state := state.(cancel := true);
        Note("Submission source committed");
      }
      state := state.(cancel := true, submitter := Idle);
    }

    /** After a refused commit. */
    method SubmitFailed()
      requires Valid() && state.submitter.Refused?
      modifies `state, `authoring, `story
      ensures Valid() && Sticky(old(state), state)
      ensures authoring <==> old(authoring) && (old(state).run.phase.Finished? || old(state).committed.None?)
      ensures state == old(state).(run := state.run, cancel := true, cancelReason := state.cancelReason,
                                   submitter := Idle)
      ensures var timedOut := old(state).submitter.timedOut;
              if old(state.run.outcome.None? && state.committed.None?) && (timedOut || !old(state).cancel) then
                && state.run.outcome == Some(if timedOut then TimedOut else Failed) && state.run.phase.Cleaning?
                && state.run.progress == old(state).run.progress
                && state.cancelReason == if timedOut then Some("deadline") else old(state).cancelReason
              else
                && state.run == Adopt(old(state).run, old(state).committed)
                && state.cancelReason == old(state).cancelReason
      ensures story == Told(old(story), old(state), SubmitEnds)
    {
      var timedOut := state.submitter.timedOut;
      ghost var told := Told(story, state, SubmitEnds);
      AdoptLocked();
      if state.run.outcome.None? && (timedOut || !state.cancel) {
        state := state.(run := state.run.(outcome := Some(if timedOut then TimedOut else Failed), hasError := true,
                                          phase := Cleaning, teardown := Pending),
                        cancelReason := if timedOut then Some("deadline") else state.cancelReason);
      }
      state := state.(cancel := true, submitter := Idle);
      story := told;
    }

    // ---- the end ----

    /** `_terminal_host`, reached once the host is over or after a join that gave up and cancelled. */
    method Terminal(ending: Ending)
      requires Valid() && RemainingOk(ending.remaining) && (state.host.Gone? || state.cancelReason.Some?)
      modifies `state, `authoring, `story
      ensures Valid() && Sticky(old(state), state) && state.run.phase.Finished?
      ensures state.run.submission == state.committed && state == old(state).(run := state.run)
      ensures authoring <==> old(authoring) && state.committed.None?
      ensures !old(state).run.phase.Finished? ==>
                && state.run == Terminate(old(state).run, old(state).committed, old(state).cancelReason,
                                          ending).(progress := state.run.progress)
                && Noted(old(state).run.progress, if state.run.teardown.Succeeded? then "Hosting cleanup completed"
                         else "Hosting cleanup unconfirmed", state.run.budget, state.run.progress)
      ensures story == Told(old(story), old(state), Ends(ending))
    {
      hide ValidRun, Noted, Adopt, Terminate, Explained;
      if state.run.phase.Finished? { return; }
      TerminalRecounts(state, story, ending);
      story := Told(story, state, Ends(ending));
      if state.committed.Some? { authoring := false; }
      state := state.(run := Terminate(state.run, state.committed, state.cancelReason, ending));
      Note(EndingLine(ending));
    }

    /** The session is closed to authoring by its own cleanup. */
    method CloseAuthoring()
      requires Valid()
      modifies `authoring
      ensures Valid() && !authoring
    {
      authoring := false;
    }

    // ---- any interleaving ----

    /** What one step does to the session. */
    twostate predicate Took(step: Step)
      reads this
    {
      && Valid() && Sticky(old(state), state)
      && Goes(old(state), step, state) && story == Told(old(story), old(state), step)
      && (authoring ==> old(authoring))
      && (old(authoring) && !authoring ==> step.SessionCloses? || state.run.submission.Some?)
      && (step.SessionCloses? ==> !authoring && state == old(state))
      && (!step.ToolBegins? && !step.ToolEnds? ==> state.tool == old(state).tool)
      && (step.ToolBegins? ==> state == old(state).(tool := state.tool, told := state.told)
                               && authoring == old(authoring))
      && (step.ToolBegins? && state.tool != old(state).tool ==>
            step.free && state.tool && authoring && !state.cancel && Early(state.run))
      && (step.ToolEnds? ==> state == old(state).(tool := false) && authoring == old(authoring))
    }

    /** A step of the host thread or of a tool. */
    method HostMoves(step: Step)
      requires Valid()
      requires step.HostBegins? || step.HostLaunches? || step.HostLeaves? || step.HostReturns? || step.ToolBegins?
               || step.ToolEnds?
      modifies `state, `authoring, `story
      ensures Took(step)
    {
      hide Consistent, Recounts, Explained, ValidRun, Noted, Adopt, Terminate;
      match step
      case HostBegins => if state.host.Waiting? { HostBegin(); }
      case HostLaunches(works) => if state.host.Begun? { Launch(works); }
      case HostLeaves => if state.host.Live? { HostExits(); }
      case HostReturns => if state.host.Live? { HostStops(); }
      case ToolBegins(free) => if state.launched { var ok := ToolBegin(free); }
      case ToolEnds => if state.tool { ToolEnd(); }
    }

    /** A step of the submit call. */
    method SubmitMoves(step: Step)
      requires Valid() && (step.SubmitBegins? || step.BackendCommits? || step.SubmitEnds?)
      modifies `state, `authoring, `story
      ensures Took(step)
    {
      hide Consistent, Recounts, Explained, ValidRun, Noted, Adopt, Terminate;
      match step
      case SubmitBegins => if state.launched { var ok, given := SubmitBegin(); }
      case BackendCommits(late, stopping, frozen, submission) =>
        if state.submitter.Sealing? { Commit(late, stopping, frozen, submission); }
      case SubmitEnds =>
        if state.submitter.Sealed? { SubmitDone(); } else if state.submitter.Refused? { SubmitFailed(); }
    }

    /** One step of one thread, taken only when that thread is there to take it. */
    method Step(step: Step)
      requires Valid()
      modifies `state, `authoring, `story
      ensures Took(step)
    {
      hide Consistent, Recounts, Explained, ValidRun, Noted, Adopt, Terminate;
      match step
      case CancelArrives(reason) => Cancel(reason);
      case Ends(ending) =>
        if (state.host.Gone? || state.cancelReason.Some?) && RemainingOk(ending.remaining) { Terminal(ending); }
      case SessionCloses => CloseAuthoring();
      case SubmitBegins | BackendCommits(_, _, _, _) | SubmitEnds => SubmitMoves(step);
      case _ => HostMoves(step);
    }

    /** A run that goes well: the agent starts, uses tools one after the other, submits in time, and ends. Every one of
        them is let in, and the finished record shows what was submitted. */
    method GoesWell(tools: nat, submission: Submission, ending: Ending)
      requires Valid() && state.host.Waiting? && state.run.phase.Starting? && authoring && !state.cancel && !state.tool
      requires state.committed.None? && state.submitter.Idle? && RemainingOk(ending.remaining)
      modifies `state, `authoring, `story
      ensures Valid() && state.run.phase.Finished? && state.run.outcome == Some(Submitted)
      ensures state.run.submission == Some(submission) == state.committed && !authoring && !state.tool
      ensures state.run.teardown.Succeeded? <==> ending.complete && ending.remaining == []
    {
      HostBegin();
      Launch(true);
      for i := 0 to tools
        invariant Valid() && state.host.Live? && state.launched && state.run.phase.Running?
        invariant authoring && !state.cancel
        invariant !state.tool && state.committed.None? && state.submitter.Idle?
      {
        hide Consistent, Recounts, ValidRun;
        var ok := ToolBegin(true);
        assert ok;
        ToolEnd();
      }
      Submits(submission, ending);
    }

    method Submits(submission: Submission, ending: Ending)
      requires Valid() && state.host.Live? && state.launched && state.run.phase.Running? && authoring && !state.cancel
      requires !state.tool && state.committed.None? && state.submitter.Idle? && RemainingOk(ending.remaining)
      modifies `state, `authoring, `story
      ensures Valid() && state.run.phase.Finished? && state.run.outcome == Some(Submitted)
      ensures state.run.submission == Some(submission) == state.committed && !authoring && !state.tool
      ensures state.run.teardown.Succeeded? <==> ending.complete && ending.remaining == []
    {
      hide Recounts, Noted;
      var ok, given := SubmitBegin();
      assert ok;
      Commit(false, false, true, submission);
      SubmitDone();
      HostStops();
      Terminal(ending);
    }

    /** Every record that could be shown during the run is valid, and a finished one never changes. */
    method Interleave(steps: seq<Step>) returns (ghost trace: seq<State>)
      requires Valid()
      modifies `state, `authoring, `story
      ensures |trace| == |steps| + 1 && trace[0] == old(state) && trace[|steps|] == state
      ensures forall i :: 0 <= i < |steps| ==> Goes(trace[i], steps[i], trace[i + 1]) && Sticky(trace[i], trace[i + 1])
      ensures story == ToldAll(old(story), trace, steps)
      ensures state.run.phase.Finished? && state.run.submission.None? ==> Explained(state.run.outcome, story)
      ensures Valid() && ValidRun(state.run) && Sticky(old(state), state)
      ensures state.run.phase.Finished? ==> state.run.submission == state.committed
      ensures state.tool && (state.host.Gone? || state.cancelReason.Some? || !Early(state.run)) ==> state.told
    {
      hide ValidRun, Sticky, Told, Explained, Goes;
      StickySelf(state);
      trace := [state];
      for i := 0 to |steps|
        invariant Valid() && Sticky(old(state), state)
        invariant |trace| == i + 1 && trace[0] == old(state) && trace[i] == state
        invariant forall j :: 0 <= j < i ==> Goes(trace[j], steps[j], trace[j + 1]) && Sticky(trace[j], trace[j + 1])
        invariant story == ToldAll(old(story), trace, steps[..i])
      {
        ghost var now, before := state, trace;
        Step(steps[i]);
        StickyChain(old(state), now, state);
        trace := trace + [state];
        assert steps[..i + 1][..i] == steps[..i];
        ToldSame(old(story), before, trace, steps[..i]);
      }
      assert steps[..|steps|] == steps;
    }
  }

  datatype Step =
    | HostBegins | HostLaunches(works: bool) | HostLeaves | HostReturns
    | ToolBegins(free: bool) | ToolEnds
    | SubmitBegins | BackendCommits(late: bool, stopping: bool, frozen: bool, submission: Submission) | SubmitEnds
    | CancelArrives(reason: string) | Ends(ending: Ending) | SessionCloses

  function EndingLine(ending: Ending): string {
    if ending.complete && ending.remaining == [] then "Hosting cleanup completed" else "Hosting cleanup unconfirmed"
  }

  lemma {:induction false} ToldSame(story: Story, trace: seq<State>, more: seq<State>, steps: seq<Step>)
    requires |trace| > |steps| && trace <= more
    ensures ToldAll(story, trace, steps) == ToldAll(story, more, steps)
  {
    if steps != [] { ToldSame(story, trace, more, steps[..|steps| - 1]); }
  }

  lemma TerminalRecounts(s: State, story: Story, ending: Ending)
    requires Consistent(s) && Recounts(s, story) && !s.run.phase.Finished?
    requires RemainingOk(ending.remaining) && (s.host.Gone? || s.cancelReason.Some?)
    ensures Recounts(s.(run := Terminate(s.run, s.committed, s.cancelReason, ending)), Told(story, s, Ends(ending)))
  {
    hide Contiguous, WithinBudget, Terminate, Adopt;
  }

  lemma NewConsistent(budget: Budget, progress: Progress)
    requires Contiguous(progress) && WithinBudget(progress.lines, budget)
    ensures var run := NewRun(budget).(progress := progress);
            var s := State(run, false, None, Waiting, Idle, false, None, false, false);
            Consistent(s) && Recounts(s, Story(None, None, false, None))
  {
    hide Contiguous, WithinBudget;
  }

  lemma StickySelf(a: State)
    ensures Sticky(a, a)
  {}

  lemma StickyChain(a: State, b: State, c: State)
    requires Sticky(a, b) && Sticky(b, c)
    ensures Sticky(a, c)
  {}

  /** What no step takes back: a finished record with its submission, the backend's submission,
      the cancel event, after which nothing is submitted any more. */
  ghost predicate Sticky(a: State, b: State) {
    && (a.run.phase.Finished? ==> b.run == a.run && b.committed == a.committed)
    && (a.committed.Some? || a.cancel ==> b.committed == a.committed)
    && (a.run.submission.Some? ==> b.run.submission == a.run.submission)
    && (a.cancel ==> b.cancel) && (a.cancelReason.Some? ==> b.cancelReason.Some?) && (a.launched ==> b.launched)
  }
}
