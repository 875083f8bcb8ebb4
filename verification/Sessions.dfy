/** A session's phases and operations under its lock: every path to cleanup joins one
    operation, and nothing moves back. */
module Sessions {
  import opened Options
  import opened Operations

  datatype Phase =
    | Open | Authoring | Submitted | Preparing | Prepared | Authorized | Reserved | Starting | Running
    | Closing | Closed | CleanupFailed

  function Rank(p: Phase): nat {
    match p
    case Open => 0
    case Authoring => 0
    case Submitted => 1
    case Preparing => 2
    case Prepared => 3
    case Authorized => 4
    case Reserved => 5
    case Starting => 6
    case Running => 7
    case Closing => 8
    case Closed => 9
    case CleanupFailed => 9
  }

  predicate Ending(p: Phase) {
    Rank(p) >= 8
  }

  /** The session's hosted run: none, still going, or over with a usable submission or not. */
  datatype Hosted = NoRun | Going | Over(usable: bool)

  /** The one ordinary slot of a session: free, lent to a tool of the hosted run, or held by an operation. */
  datatype Slot = Free | Tool | Held(id: nat)

  datatype State = State(phase: Phase, operations: seq<Operation>, next: nat, slot: Slot, cancelled: set<nat>,
                         cleanup: Option<nat>, reason: Option<string>, hosted: Hosted)

  // ---- what the lock keeps ----

  ghost predicate OperationsOk(s: State, open: set<nat>) {
    && InOrder(s.operations) && (forall op :: op in s.operations ==> op.id < s.next)
    && (forall op :: op in s.operations ==> (op.pending <==> op.id in open))
    && (forall id :: id in open ==> Operation(id, true) in s.operations)
  }

  /** The cleanup operation is the last one ever created, has its reason, and is not forgotten while anything is
      retained. */
  ghost predicate CleanupOk(s: State, retention: nat) {
    match s.cleanup
    case None => s.reason.None? && !s.phase.Closed? && !s.phase.CleanupFailed?
    case Some(id) =>
      && s.reason.Some? && Ending(s.phase) && id + 1 == s.next
      && (retention >= 1 ==> s.operations != [] && s.operations[|s.operations| - 1].id == id)
  }

  /** Once cleanup exists, every other pending operation has been told to stop. */
  ghost predicate CancelledOk(s: State, open: set<nat>) {
    s.cleanup.Some? ==> forall id :: id in open && id != s.cleanup.value ==> id in s.cancelled
  }

  ghost predicate HostedOk(s: State) {
    s.hosted.Going? ==> s.phase.Authoring? || s.phase.Submitted? || Ending(s.phase)
  }

  ghost predicate Ok(s: State, open: set<nat>, retention: nat) {
    OperationsOk(s, open) && CleanupOk(s, retention) && CancelledOk(s, open) && HostedOk(s)
  }

  /** Phases only advance, the first reason stays, the one cleanup operation stays and is the last. */
  ghost predicate Advances(a: State, b: State) {
    && Rank(a.phase) <= Rank(b.phase) && a.next <= b.next
    && (a.cleanup.Some? ==> b.cleanup == a.cleanup && b.reason == a.reason && b.next == a.next)
  }

  lemma AdvancesChain(a: State, b: State, c: State)
    requires Advances(a, b) && Advances(b, c)
    ensures Advances(a, c)
  {}

  // ---- forward moves ----

  /** The phase a move comes from, with what preparing demands of the slot and the hosted run. */
  predicate Allowed(s: State, move: Move) {
    match move
    case Prepare => Rank(s.phase) <= 1 && s.slot.Free? && (s.hosted.Going? || s.hosted.Over? ==> s.hosted == Over(true))
    case PrepareDone => s.phase.Preparing?
    case Authorize => s.phase.Prepared?
    case Acquire => s.phase.Authorized?
    case Launch => s.phase.Reserved?
    case WorkerReady => s.phase.Starting?
  }

  function Target(move: Move): Phase {
    match move
    case Prepare => Preparing
    case PrepareDone => Prepared
    case Authorize => Authorized
    case Acquire => Reserved
    case Launch => Starting
    case WorkerReady => Running
  }

  // ---- operations ----

  function Released(slot: Slot, id: nat): Slot {
    if slot == Held(id) then Free else slot
  }

  function Marked(ops: seq<Operation>, id: nat): (r: seq<Operation>)
    ensures |r| == |ops| && forall i :: 0 <= i < |ops| ==>
                                          r[i] == if ops[i].id == id then Operation(id, false) else ops[i]
  {
    seq(|ops|, i requires 0 <= i < |ops| => if ops[i].id == id then Operation(id, false) else ops[i])
  }

  lemma MarkKeeps(s: State, open: set<nat>, id: nat)
    requires OperationsOk(s, open)
    ensures OperationsOk(s.(operations := Marked(s.operations, id)), open - {id})
  {
    var ops := Marked(s.operations, id);
    forall op | op in ops ensures op.id < s.next && (op.pending <==> op.id in open - {id}) {
      var i :| 0 <= i < |ops| && ops[i] == op;
      assert s.operations[i] in s.operations;
    }
    forall x | x in open - {id} ensures Operation(x, true) in ops {
      var i :| 0 <= i < |s.operations| && s.operations[i] == Operation(x, true);
      assert ops[i] == Operation(x, true);
    }
  }

  lemma FinishKeeps(s: State, open: set<nat>, retention: nat, id: nat)
    requires Ok(s, open, retention)
    ensures Ok(s.(operations := Marked(s.operations, id), slot := Released(s.slot, id)), open - {id}, retention)
  {
    hide InOrder;
    MarkKeeps(s, open, id);
    assert OperationsOk(s.(operations := Marked(s.operations, id), slot := Released(s.slot, id)), open - {id});
  }

  lemma CreateKeeps(s: State, open: set<nat>, retention: nat)
    requires Ok(s, open, retention) && s.cleanup.None?
    ensures OperationsOk(s.(operations := s.operations + [Operation(s.next, true)], next := s.next + 1),
                         open + {s.next})
  {
    var ops := s.operations + [Operation(s.next, true)];
    forall id | id in open ensures id < s.next {
      assert Operation(id, true) in s.operations;
    }
    forall i, j | 0 <= i < j < |ops| ensures ops[i].id < ops[j].id {
      assert ops[i] in s.operations;
    }
  }

  lemma EvictKeeps(s: State, open: set<nat>, retention: nat, ops: seq<Operation>)
    requires Ok(s, open, retention) && Thinned(s.operations, ops)
    requires retention >= 1 && s.operations != [] ==> ops != [] && ops[|ops| - 1] == s.operations[|s.operations| - 1]
    ensures Ok(s.(operations := ops), open, retention)
  {}

  class SessionState {
    const retention: nat
    var state: State
    ghost var open: set<nat>

    ghost predicate Valid()
      reads this
    {
      Ok(state, open, retention)
    }

    constructor (retention: nat, authoring: bool)
      ensures Valid() && this.retention == retention && state.cleanup.None? && open == {}
      ensures state.hosted.NoRun? && state.slot.Free? && state.phase == if authoring then Authoring else Open
    {
      this.retention := retention;
      state := State(if authoring then Authoring else Open, [], 1, Free, {}, None, None, NoRun);
      open := {};
    }

    /** `_new_operation`: refused once the session is ending. */
    method NewOperation(ordinary: bool) returns (id: Option<nat>)
      requires Valid()
      modifies this
      ensures Valid() && Advances(old(state), state) && state.phase == old(state).phase
      ensures id.Some? <==> && !old(state).phase.Closing? && !old(state).phase.Closed?
                            && !old(state).phase.CleanupFailed? && (ordinary ==> old(state).slot.Free?)
      ensures id.None? ==> state == old(state) && open == old(open)
      ensures state == old(state).(operations := state.operations, next := state.next, slot := state.slot)
      ensures id.Some? ==> id.value == old(state).next && open == old(open) + {id.value}
      ensures id.Some? ==> state.operations == old(state).operations + [Operation(id.value, true)]
      ensures id.Some? ==> state.slot == if ordinary then Held(id.value) else old(state).slot
    {
      if Ending(state.phase) || (ordinary && !state.slot.Free?) { return None; }
      CreateKeeps(state, open, retention);
      id := Some(state.next);
      open := open + {state.next};
      state := state.(operations := state.operations + [Operation(state.next, true)], next := state.next + 1,
                      slot := if ordinary then Held(state.next) else state.slot);
    }

    /** An operation ends. */
    method Finish(id: nat)
      requires Valid()
      modifies this
      ensures Valid() && Advances(old(state), state) && open == old(open) - {id}
      ensures state == old(state).(operations := state.operations, slot := Released(old(state).slot, id))
      ensures |state.operations| == |old(state).operations|
      ensures forall i :: 0 <= i < |state.operations| ==> state.operations[i].id == old(state).operations[i].id
    {
      FinishKeeps(state, open, retention, id);
      state := state.(operations := Marked(state.operations, id), slot := Released(state.slot, id));
      open := open - {id};
    }

    /** `_evict`: every pending operation stays, and with retention so does the cleanup operation. */
    method Forget()
      requires Valid()
      modifies `state
      ensures Valid() && Advances(old(state), state) && state == old(state).(operations := state.operations)
      ensures forall id :: id in open ==> Operation(id, true) in state.operations
      ensures FinishedCount(state.operations) <= retention
      ensures retention >= 1 && state.cleanup.Some? ==>
                exists op :: op in state.operations && op.id == state.cleanup.value
    {
      hide Thinned;
      var ops := Evict(state.operations, retention);
      EvictKeeps(state, open, retention, ops);
      state := state.(operations := ops);
      if retention >= 1 && state.cleanup.Some? { assert ops[|ops| - 1] in ops; }
    }

    /** `_cleanup_operation`: join the existing one, or create it and close the session. */
    method Cleanup(reason: string) returns (id: Option<nat>)
      requires Valid()
      modifies this
      ensures Valid() && Advances(old(state), state) && state.cleanup.Some? && old(open) <= open
      ensures old(state).cleanup.Some? ==> state == old(state)
      ensures old(state).cleanup.Some? ==> (id.Some? <==>
                                              exists op :: op in state.operations && op.id == state.cleanup.value)
      ensures old(state).cleanup.None? ==> state.reason == Some(reason) && state.phase.Closing?
                                           && id == Some(old(state).next)
      ensures old(state).cleanup.None? ==> open == old(open) + {old(state).next}
      ensures state.hosted == old(state).hosted && state.slot == old(state).slot
      ensures id.Some? ==> id == state.cleanup
      ensures retention >= 1 ==> id.Some?
    {
      if state.cleanup.Some? {
        var kept := exists op :: op in state.operations && op.id == state.cleanup.value;
        if retention >= 1 { assert state.operations[|state.operations| - 1] in state.operations; }
        return if kept then state.cleanup else None;
      }
      CreateKeeps(state, open, retention);
      id := Some(state.next);
      var others := set op | op in state.operations && op.pending :: op.id;
      forall x | x in open ensures x in others {
        assert Operation(x, true) in state.operations;
      }
      open := open + {state.next};
      state := state.(operations := state.operations + [Operation(state.next, true)], next := state.next + 1,
                      cancelled := state.cancelled + others, cleanup := Some(state.next), phase := Closing,
                                   reason := Some(reason));
    }

    /** The cleanup work ends. */
    method CleanupEnds(complete: bool)
      requires Valid() && state.cleanup.Some? && state.phase.Closing?
      modifies `state
      ensures Valid() && Advances(old(state), state)
      ensures state == old(state).(phase := state.phase) && Rank(state.phase) > Rank(old(state).phase)
      ensures (complete <==> state.phase.Closed?)
    {
      state := state.(phase := if complete then Closed else CleanupFailed);
    }

    /** `_op_worker_release` marks the session closing before its cleanup exists. */
    method ReleaseBegins()
      requires Valid()
      modifies `state
      ensures Valid() && Advances(old(state), state) && Ending(state.phase)
      ensures state == old(state).(phase := state.phase) && (old(state).cleanup.Some? ==> state == old(state))
    {
      if state.cleanup.None? { state := state.(phase := Closing); }
    }

    method StartRun()
      requires Valid()
      modifies `state
      ensures Valid() && Advances(old(state), state)
      ensures state == old(state).(hosted := state.hosted)
      ensures state.hosted != old(state).hosted <==>
                old(state).phase.Authoring? && old(state).hosted.NoRun? && old(state).slot.Free?
      ensures state.hosted != old(state).hosted ==> state.hosted.Going?
    {
      if state.phase.Authoring? && state.hosted.NoRun? && state.slot.Free? { state := state.(hosted := Going); }
    }

    /** A tool of the hosted run borrows the slot, and gives it back. */
    method BorrowSlot()
      requires Valid()
      modifies `state
      ensures Valid() && Advances(old(state), state)
      ensures state == old(state).(slot := state.slot)
      ensures state.slot != old(state).slot <==>
                old(state).hosted.Going? && old(state).phase.Authoring? && old(state).slot.Free?
      ensures state.slot != old(state).slot ==> state.slot.Tool?
    {
      if state.hosted.Going? && state.phase.Authoring? && state.slot.Free? { state := state.(slot := Tool); }
    }

    method ReturnSlot()
      requires Valid()
      modifies `state
      ensures Valid() && Advances(old(state), state)
      ensures state == old(state).(slot := state.slot) && !state.slot.Tool?
      ensures (state.slot.Free? || state.slot == old(state).slot)
    {
      if state.slot.Tool? { state := state.(slot := Free); }
    }

    /** A committed submission is adopted by the unfinished run. */
    method AdoptSubmission()
      requires Valid()
      modifies `state
      ensures Valid() && Advances(old(state), state)
      ensures state == old(state).(phase := state.phase)
      ensures old(state).hosted.Going? && !Ending(old(state).phase) ==> state.phase.Submitted?
      ensures state != old(state) ==> Rank(state.phase) > Rank(old(state).phase)
      ensures !old(state).hosted.Going? || Ending(old(state).phase) ==> state == old(state)
    {
      if state.hosted.Going? && !Ending(state.phase) { state := state.(phase := Submitted); }
    }

    method RunEnds(usable: bool)
      requires Valid()
      modifies `state
      ensures Valid() && Advances(old(state), state)
      ensures state == old(state).(hosted := state.hosted)
      ensures state.hosted == if old(state).hosted.Going? then Over(usable) else old(state).hosted
    {
      if state.hosted.Going? { state := state.(hosted := Over(usable)); }
    }

    /** The forward moves of the remaining requests and worker events. */
    method Move(move: Move)
      requires Valid()
      modifies `state
      ensures Valid() && Advances(old(state), state)
      ensures state == if Allowed(old(state), move) then old(state).(phase := Target(move)) else old(state)
      ensures state != old(state) ==> Rank(state.phase) > Rank(old(state).phase)
    {
      match move
      case Prepare =>
        if Rank(state.phase) <= 1 && state.slot.Free? && (state.hosted.NoRun? || state.hosted == Over(true)) {
          state := state.(phase := Preparing);
        }
      case PrepareDone => if state.phase.Preparing? { state := state.(phase := Prepared); }
      case Authorize => if state.phase.Prepared? { state := state.(phase := Authorized); }
      case Acquire => if state.phase.Authorized? { state := state.(phase := Reserved); }
      case Launch => if state.phase.Reserved? { state := state.(phase := Starting); }
      case WorkerReady => if state.phase.Starting? { state := state.(phase := Running); }
    }

    /** Left to itself, a session that may be prepared takes each move once, in the one order there is, and ignores
        any other. */
    method Walk(moves: seq<Move>)
      requires Valid() && Rank(state.phase) <= 1 && state.slot.Free?
      requires state.hosted.NoRun? || state.hosted == Over(true)
      modifies `state
      ensures Valid() && state == old(state).(phase := state.phase)
      ensures state.phase == ([old(state).phase] + PATH)[InTurn(moves)]
    {
      hide Ok;
      for i := 0 to |moves|
        invariant Valid() && state == old(state).(phase := state.phase)
        invariant state.phase == ([old(state).phase] + PATH)[InTurn(moves[..i])]
      {
        assert moves[..i + 1][..i] == moves[..i] && moves[..i + 1][i] == moves[i];
        Move(moves[i]);
      }
      assert moves[..|moves|] == moves;
    }

    method Step(step: Step)
      requires Valid()
      modifies this
      ensures Valid() && Advances(old(state), state)
      ensures forall id :: id in old(open) && step != Finishes(id) ==> id in open
    {
      hide Ok;
      match step
      case Creates(ordinary) => var id := NewOperation(ordinary);
      case Finishes(id) => Finish(id);
      case Forgets => Forget();
      case CleansUp(reason) => var id := Cleanup(reason);
      case CleanupReports(complete) => if state.cleanup.Some? && state.phase.Closing? { CleanupEnds(complete); }
      case Releases => ReleaseBegins();
      case StartsRun => StartRun();
      case BorrowsSlot => BorrowSlot();
      case ReturnsSlot => ReturnSlot();
      case Adopts => AdoptSubmission();
      case EndsRun(usable) => RunEnds(usable);
      case Moves(move) => Move(move);
    }

    /** Any interleaving of the session's threads. */
    method Interleave(steps: seq<Step>)
      requires Valid()
      modifies this
      ensures Valid() && Advances(old(state), state)
      ensures forall id :: id in open ==> Operation(id, true) in state.operations
      ensures retention >= 1 && state.cleanup.Some? ==>
                state.operations != [] && state.operations[|state.operations| - 1].id == state.cleanup.value
      ensures state.cleanup.Some? ==> forall id :: id in open && id != state.cleanup.value ==> id in state.cancelled
    {
      for i := 0 to |steps|
        invariant Valid() && Advances(old(state), state)
      {
        ghost var now := state;
        Step(steps[i]);
        AdvancesChain(old(state), now, state);
      }
    }
  }

  /** With nothing retained a finished cleanup is forgotten, and a later call has nothing to join. */
  method CleanupForgotten(authoring: bool, first: string, second: string) returns (s: SessionState, joined: Option<nat>)
    ensures s.Valid() && s.retention == 0 && s.state.cleanup.Some? && s.state.reason == Some(first) && joined.None?
  {
    s := new SessionState(0, authoring);
    var id := s.Cleanup(first);
    s.Finish(id.value);
    s.Forget();
    assert forall op :: op in s.state.operations ==> !op.pending;
    NothingRetained(s.state.operations);
    joined := s.Cleanup(second);
  }

  datatype Move = Prepare | PrepareDone | Authorize | Acquire | Launch | WorkerReady

  /** The order of the moves, and the phases they lead to. */
  const ORDER: seq<Move> := [Prepare, PrepareDone, Authorize, Acquire, Launch, WorkerReady]
  const PATH: seq<Phase> := [Preparing, Prepared, Authorized, Reserved, Starting, Running]

  /** How many of the moves came when it was their turn. */
  function InTurn(moves: seq<Move>): (n: nat)
    ensures n <= |ORDER|
  {
    if moves == [] then 0
    else
      var n := InTurn(moves[..|moves| - 1]);
      if n < |ORDER| && moves[|moves| - 1] == ORDER[n] then n + 1 else n
  }

  datatype Step =
    | Creates(ordinary: bool) | Finishes(id: nat) | Forgets
    | CleansUp(reason: string) | CleanupReports(complete: bool) | Releases
    | StartsRun | BorrowsSlot | ReturnsSlot | Adopts | EndsRun(usable: bool) | Moves(move: Move)
}
