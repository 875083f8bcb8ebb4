/** The broker's view of a worker conversation: what it forwards from the client, what it
    accepts from the worker, and what closing still lets through. */
module Relay {
  import opened Options

  datatype Op = Hello | Create | Other | Dispose | Cancel(target: nat)

  datatype Lifecycle = AwaitHello | AwaitCreate | Created | Ready | Disposed | Poisoned

  datatype CleanupMode = DisposeThenTerminate | TerminateOnly

  /** A worker's answer: success or not, and whether its result is what the operation promises. */
  datatype Reply = Reply(id: nat, ok: bool, fits: bool)

  /** A client frame let through, and whether closing had begun. */
  datatype Forward = Forward(id: nat, op: Op, closing: bool)

  // ---- what every accepted interleaving keeps ----

  function Ids(p: Option<nat>): set<nat> {
    if p.Some? then {p.value} else {}
  }

  /** The request table holds exactly the pending call and the pending cancellation. */
  ghost predicate TableExact(requests: map<nat, Op>, ordinary: Option<nat>, cancel: Option<nat>, lastId: nat) {
    && requests.Keys == Ids(ordinary) + Ids(cancel)
    && (ordinary.Some? ==> !requests[ordinary.value].Cancel? && ordinary.value <= lastId)
    && (cancel.Some? ==> requests[cancel.value].Cancel? && cancel.value <= lastId)
  }

  predicate Sent(log: seq<Forward>, op: Op) {
    exists i :: 0 <= i < |log| && log[i].op == op
  }

  predicate CancelSent(log: seq<Forward>) {
    exists i :: 0 <= i < |log| && log[i].op.Cancel?
  }

  /** Hello, create and dispose pass at most once. */
  ghost predicate OnceEach(log: seq<Forward>) {
    forall i, j :: 0 <= i < j < |log| && log[i].op == log[j].op ==> log[i].op.Other? || log[i].op.Cancel?
  }

  /** Once closing has begun: one cancellation, one disposal, and no disposal after any cancellation. */
  ghost predicate ClosesCleanly(log: seq<Forward>) {
    && (forall i, j :: 0 <= i < j < |log| && log[i].closing ==> log[j].closing)
    && (forall i :: 0 <= i < |log| && log[i].closing ==> log[i].op.Cancel? || log[i].op.Dispose?)
    && (forall i, j :: 0 <= i < j < |log| && log[i].closing && log[i].op.Cancel? ==> !log[j].op.Cancel?)
    && (forall i, j :: 0 <= i < j < |log| && log[j].closing && log[j].op.Dispose? ==> !log[i].op.Cancel?)
  }

  /** How far the handshake has come, against what was forwarded. */
  ghost predicate Handshake(log: seq<Forward>, lifecycle: Lifecycle, pendingOp: Option<Op>, ready: nat) {
    && (Sent(log, Hello) ==> !lifecycle.AwaitHello? || pendingOp == Some(Hello))
    && (Sent(log, Create) ==> (!lifecycle.AwaitHello? && !lifecycle.AwaitCreate?) || pendingOp == Some(Create))
    && (pendingOp == Some(Hello) ==> lifecycle.AwaitHello? && ready == 0)
    && (pendingOp == Some(Create) ==> lifecycle.AwaitCreate? && ready == 0)
    && ready <= 1 && (ready == 1 ==> !lifecycle.AwaitHello? && !lifecycle.AwaitCreate?)
  }

  ghost predicate ClosingCancel(log: seq<Forward>) {
    exists i :: 0 <= i < |log| && log[i].closing && log[i].op.Cancel?
  }

  /** After a cancellation during closing, a pending call is the one being cancelled. */
  ghost predicate Winding(log: seq<Forward>, closing: bool, cancelled: bool, disposed: bool, ordinary: Option<nat>,
                          cancel: Option<nat>) {
    && (CancelSent(log) <==> cancelled) && (Sent(log, Dispose) <==> disposed)
    && (forall i :: 0 <= i < |log| && log[i].closing ==> closing)
    && (ClosingCancel(log) && ordinary.Some? ==> cancel.Some?)
  }

  /** The fields of the monitor. */
  datatype Flow = Flow(lastId: nat, requests: map<nat, Op>, ordinary: Option<nat>, cancel: Option<nat>,
                       lifecycle: Lifecycle,
                       closing: bool, cancelledEver: bool, disposeSent: bool)

  function Start(): Flow {
    Flow(0, map[], None, None, AwaitHello, false, false, false)
  }

  function PendingOp(f: Flow): Option<Op> {
    if f.ordinary.Some? && f.ordinary.value in f.requests then Some(f.requests[f.ordinary.value]) else None
  }

  /** Without a cancellation the worker is up exactly once it said so; a call in progress has a worker to do it. */
  ghost predicate Standing(f: Flow, ready: nat) {
    && ((f.lifecycle.Created? || f.lifecycle.Ready?) && !f.cancelledEver ==> ready == 1)
    && (f.cancel.Some? ==> f.cancelledEver)
    && (f.lifecycle.Disposed? || PendingOp(f) == Some(Dispose) ==> f.disposeSent)
    && (PendingOp(f) == Some(Other) || PendingOp(f) == Some(Dispose) ==> f.lifecycle.Created? || f.lifecycle.Ready?)
  }

  ghost predicate Tracks(f: Flow, log: seq<Forward>, ready: nat) {
    && Standing(f, ready)
    && TableExact(f.requests, f.ordinary, f.cancel, f.lastId)
    && Handshake(log, f.lifecycle, PendingOp(f), ready)
    && Winding(log, f.closing, f.cancelledEver, f.disposeSent, f.ordinary, f.cancel)
  }

  ghost predicate Clean(log: seq<Forward>, ready: nat) {
    OnceEach(log) && ClosesCleanly(log) && ready <= 1
  }

  // ---- one frame from the client ----

  function Mode(f: Flow): CleanupMode {
    if f.ordinary.None? && f.cancel.None? && !f.cancelledEver && !f.disposeSent
       && (f.lifecycle.Created? || f.lifecycle.Ready?)
    then DisposeThenTerminate else TerminateOnly
  }

  /** The checks that do not depend on closing. */
  predicate Acceptable(f: Flow, op: Op) {
    match op
    case Cancel(target) => f.ordinary == Some(target) && f.cancel.None?
    case Hello => f.ordinary.None? && f.lifecycle.AwaitHello?
    case Create => f.ordinary.None? && f.lifecycle.AwaitCreate?
    case Dispose => f.ordinary.None? && (f.lifecycle.Created? || f.lifecycle.Ready?) && !f.disposeSent
    case Other => f.ordinary.None? && (f.lifecycle.Created? || f.lifecycle.Ready?)
  }

  /** What closing still lets through. */
  predicate AllowedWhileClosing(f: Flow, op: Op) {
    match op
    case Cancel(target) => f.ordinary == Some(target) && f.cancel.None?
    case Dispose => Mode(f).DisposeThenTerminate?
    case _ => false
  }

  function Forwarded(f: Flow, id: nat, op: Op): Flow {
    var g := f.(lastId := id, requests := f.requests[id := op]);
    if op.Cancel? then g.(cancel := Some(id), cancelledEver := true)
    else g.(ordinary := Some(id), disposeSent := f.disposeSent || op.Dispose?)
  }

  lemma SentNext(log: seq<Forward>, f: Forward, op: Op)
    ensures Sent(log + [f], op) <==> Sent(log, op) || f.op == op
    ensures CancelSent(log + [f]) <==> CancelSent(log) || f.op.Cancel?
    ensures ClosingCancel(log + [f]) <==> ClosingCancel(log) || (f.closing && f.op.Cancel?)
  {
    var more := log + [f];
    assert more[|log|] == f;
    assert forall i :: 0 <= i < |log| ==> more[i] == log[i];
  }

  lemma OnceNext(log: seq<Forward>, f: Forward)
    requires OnceEach(log) && (f.op.Other? || f.op.Cancel? || !Sent(log, f.op))
    ensures OnceEach(log + [f])
  {}

  lemma ClosesNext(log: seq<Forward>, f: Forward)
    requires ClosesCleanly(log) && (forall i :: 0 <= i < |log| && log[i].closing ==> f.closing)
    requires f.closing ==> f.op.Cancel? || f.op.Dispose?
    requires f.op.Cancel? ==> !ClosingCancel(log)
    requires f.op.Dispose? && f.closing ==> !CancelSent(log)
    ensures ClosesCleanly(log + [f])
  {}

  lemma ClosingIsSent(log: seq<Forward>)
    ensures ClosingCancel(log) ==> CancelSent(log) && exists i :: 0 <= i < |log| && log[i].closing
  {}

  lemma ForwardKeeps(f: Flow, log: seq<Forward>, ready: nat, id: nat, op: Op)
    requires Tracks(f, log, ready) && Clean(log, ready) && id > f.lastId
    requires Acceptable(f, op) && (f.closing ==> AllowedWhileClosing(f, op))
    ensures Clean(log + [Forward(id, op, f.closing)], ready)
    ensures Tracks(Forwarded(f, id, op), log + [Forward(id, op, f.closing)], ready)
  {
    hide Sent, CancelSent, ClosingCancel, OnceEach, ClosesCleanly;
    var fwd := Forward(id, op, f.closing);
    SentNext(log, fwd, Hello);
    SentNext(log, fwd, Create);
    SentNext(log, fwd, Dispose);
    ClosingIsSent(log);
    OnceNext(log, fwd);
    ClosesNext(log, fwd);
    assert Forwarded(f, id, op).requests.Keys == f.requests.Keys + {id};
  }

  // ---- one frame from the worker ----

  /** The frame answers a pending request, a cancellation only after the call it cancels. */
  predicate Correlates(f: Flow, id: nat) {
    id in f.requests && (f.cancel == Some(id) ==> f.ordinary.None?)
  }

  /** The answer has the shape its operation promises. */
  predicate Satisfies(op: Op, reply: Reply) {
    match op
    case Hello => reply.ok && reply.fits
    case Create => reply.ok && reply.fits
    case Dispose => reply.ok ==> reply.fits
    case _ => true
  }

  function Moved(op: Op, ok: bool): Lifecycle {
    match op
    case Hello => AwaitCreate
    case Create => Created
    case Dispose => if ok then Disposed else Poisoned
    case _ => if ok then Ready else Poisoned
  }

  function Settled(f: Flow, reply: Reply): Flow
    requires reply.id in f.requests
  {
    var g := f.(requests := f.requests - {reply.id}, lifecycle := Moved(f.requests[reply.id], reply.ok));
    if f.cancel == Some(reply.id) then g.(cancel := None) else g.(ordinary := None)
  }

  lemma LessPending(log: seq<Forward>, closing: bool, cancelled: bool, disposed: bool, ordinary: Option<nat>,
                    cancel: Option<nat>,
                    ordinary': Option<nat>, cancel': Option<nat>)
    requires Winding(log, closing, cancelled, disposed, ordinary, cancel)
    requires (ordinary'.None? && cancel' == cancel) || (ordinary.None? && ordinary'.None?)
    ensures Winding(log, closing, cancelled, disposed, ordinary', cancel')
  {}

  lemma ReplyKeeps(f: Flow, log: seq<Forward>, ready: nat, reply: Reply)
    requires Tracks(f, log, ready) && Clean(log, ready) && Correlates(f, reply.id)
    requires Satisfies(f.requests[reply.id], reply)
    ensures var more := if f.requests[reply.id].Create? then ready + 1 else ready;
            Clean(log, more) && Tracks(Settled(f, reply), log, more)
  {
    hide Sent, CancelSent, ClosingCancel, OnceEach, ClosesCleanly, Winding;
    var g := Settled(f, reply);
    assert g.requests.Keys == f.requests.Keys - {reply.id};
    LessPending(log, f.closing, f.cancelledEver, f.disposeSent, f.ordinary, f.cancel, g.ordinary, g.cancel);
  }

  lemma Pending(f: Flow, log: seq<Forward>, ready: nat)
    requires Tracks(f, log, ready)
    ensures f.requests.Keys == Ids(f.ordinary) + Ids(f.cancel)
    ensures f.ordinary.Some? && f.cancel.Some? ==> f.ordinary != f.cancel
    ensures forall id :: id in f.requests ==> id <= f.lastId
  {}

  /** A worker that is up, has nothing to do, and was never cancelled or disposed of, is to be disposed of. */
  lemma Quiescent(f: Flow, log: seq<Forward>, ready: nat)
    requires Tracks(f, log, ready)
    ensures Mode(f).DisposeThenTerminate? <==>
              && f.requests == map[] && ready == 1 && !f.lifecycle.Poisoned?
              && !CancelSent(log) && !Sent(log, Dispose)
  {
    hide Sent, CancelSent, ClosingCancel;
    assert f.requests == map[] <==> f.requests.Keys == {};
    if f.ordinary.Some? { assert f.ordinary.value in f.requests.Keys; }
    if f.cancel.Some? { assert f.cancel.value in f.requests.Keys; }
  }

  // ---- the monitor ----

  datatype Frame = FromClient(id: nat, op: Op) | FromWorker(reply: Reply) | Close

  class WorkerFlow {
    var flow: Flow
    /** A rejected frame ends the relay. */
    var failed: bool
    /** Frames let through, in order, and ready events raised. */
    var log: seq<Forward>
    var ready: nat

    ghost predicate Valid()
      reads this
    {
      Clean(log, ready) && (!failed ==> Tracks(flow, log, ready))
    }

    constructor ()
      ensures Valid() && !failed && flow == Start() && log == [] && ready == 0
    {
      flow := Start();
      failed, log, ready := false, [], 0;
    }

    method BeginClosing() returns (mode: CleanupMode)
      requires Valid()
      modifies `flow
      ensures Valid() && flow == old(flow).(closing := true) && mode == Mode(flow) && failed == old(failed)
      ensures !failed ==>
                (mode.DisposeThenTerminate? <==>
                   && flow.requests == map[] && ready == 1 && !flow.lifecycle.Poisoned?
                   && !CancelSent(log) && !Sent(log, Dispose))
    {
      flow := flow.(closing := true);
      mode := Mode(flow);
      if !failed { Quiescent(flow, log, ready); }
    }

    /** `client_frame`: forward the frame and remember it, or fail. */
    method ClientFrame(id: nat, op: Op) returns (ok: bool)
      requires Valid() && !failed
      modifies this
      ensures Valid() && failed == !ok && ready == old(ready)
      ensures ok <==> old(id > flow.lastId && (flow.closing ==> AllowedWhileClosing(flow, op)) && Acceptable(flow, op))
      ensures log == if ok then old(log) + [Forward(id, op, old(flow).closing)] else old(log)
      ensures ok ==> flow == Forwarded(old(flow), id, op)
    {
      hide Clean, Tracks;
      if id <= flow.lastId || (flow.closing && !AllowedWhileClosing(flow, op)) || !Acceptable(flow, op) {
        failed := true;
        return false;
      }
      ForwardKeeps(flow, log, ready, id, op);
      log := log + [Forward(id, op, flow.closing)];
      flow := flow.(lastId := id, requests := flow.requests[id := op]);
      if op.Cancel? {
        flow := flow.(cancel := Some(id), cancelledEver := true);
      } else {
        flow := flow.(ordinary := Some(id), disposeSent := flow.disposeSent || op.Dispose?);
      }
      ok := true;
    }

    /** `worker_frame`: match the answer to what is pending and move the lifecycle. */
    method WorkerFrame(reply: Reply) returns (ok: bool)
      requires Valid() && !failed
      modifies this
      ensures Valid() && failed == !ok && log == old(log)
      ensures ok <==> old(Correlates(flow, reply.id) && Satisfies(flow.requests[reply.id], reply))
      ensures ok ==> old(flow.ordinary == Some(reply.id) || (flow.cancel == Some(reply.id) && flow.ordinary.None?))
      ensures old(flow.ordinary == Some(reply.id) || (flow.cancel == Some(reply.id) && flow.ordinary.None?)) ==>
                (ok <==> match old(flow).requests[reply.id]
                         case Hello => reply.ok && reply.fits
                         case Create => reply.ok && reply.fits
                         case Dispose => !reply.ok || reply.fits
                         case _ => true)
      ensures ok ==> flow == Settled(old(flow), reply)
      ensures ready == old(ready) + if ok && old(flow).requests[reply.id].Create? then 1 else 0
    {
      Pending(flow, log, ready);
      hide Clean, Tracks;
      if !Correlates(flow, reply.id) || !Satisfies(flow.requests[reply.id], reply) {
        failed := true;
        return false;
      }
      ReplyKeeps(flow, log, ready, reply);
      if flow.requests[reply.id].Create? { ready := ready + 1; }
      flow := Settled(flow, reply);
      ok := true;
    }

    /** A request with nothing pending, and its answer. */
    method Exchange(id: nat, op: Op)
      requires Valid() && !failed && id > flow.lastId && flow.requests == map[] && !op.Cancel?
      requires Acceptable(flow, op) && (flow.closing ==> AllowedWhileClosing(flow, op))
      modifies this
      ensures Valid() && !failed && log == old(log) + [Forward(id, op, old(flow).closing)]
      ensures ready == old(ready) + if op.Create? then 1 else 0
      ensures flow.requests == map[] && flow.ordinary.None? && flow.cancel == old(flow).cancel && flow.lastId == id
      ensures flow.closing == old(flow).closing && flow.cancelledEver == old(flow).cancelledEver
      ensures flow.disposeSent <==> old(flow).disposeSent || op.Dispose?
      ensures flow.lifecycle == Moved(op, true)
    {
      Pending(flow, log, ready);
      hide Clean, Tracks;
      var ok := ClientFrame(id, op);
      ok := WorkerFrame(Reply(id, true, true));
      assert flow.requests.Keys == {};
    }

    /** A session that goes well passes as a whole: hello, create, calls, each answered, then a disposal once closing
        has begun. */
    method Passes(hello: nat, create: nat, calls: seq<nat>, dispose: nat)
      requires Valid() && !failed && flow == Start() && log == [] && ready == 0
      requires 0 < hello < create && (forall k :: 0 <= k < |calls| ==> create < calls[k] < dispose) && create < dispose
      requires forall j, k :: 0 <= j < k < |calls| ==> calls[j] < calls[k]
      modifies this
      ensures Valid() && !failed && ready == 1 && flow.requests == map[] && flow.lifecycle.Disposed?
      ensures |log| == |calls| + 3 && log[0] == Forward(hello, Hello, false) && log[1] == Forward(create, Create, false)
      ensures forall k :: 0 <= k < |calls| ==> log[k + 2] == Forward(calls[k], Other, false)
      ensures log[|calls| + 2] == Forward(dispose, Dispose, true)
    {
      hide Clean, Tracks;
      Exchange(hello, Hello);
      Exchange(create, Create);
      for n := 0 to |calls|
        invariant Valid() && !failed && ready == 1 && flow.requests == map[] && flow.ordinary.None? && flow.cancel.None?
        invariant !flow.closing && !flow.cancelledEver && !flow.disposeSent
        invariant flow.lastId == if n == 0 then create else calls[n - 1]
        invariant flow.lifecycle == if n == 0 then Created else Ready
        invariant |log| == n + 2 && log[0] == Forward(hello, Hello, false) && log[1] == Forward(create, Create, false)
        invariant forall k :: 0 <= k < n ==> log[k + 2] == Forward(calls[k], Other, false)
      {
        Exchange(calls[n], Other);
      }
      var mode := BeginClosing();
      Exchange(dispose, Dispose);
    }

    /** A call in progress can be cancelled once, closing or not; its own answer comes first. */
    method CancelPasses(id: nat, target: nat, worked: bool)
      requires Valid() && !failed && flow.ordinary == Some(target) && flow.cancel.None? && id > flow.lastId
      requires target in flow.requests && flow.requests[target].Other?
      modifies this
      ensures Valid() && !failed && log == old(log) + [Forward(id, Cancel(target), old(flow).closing)]
      ensures ready == old(ready) && flow.requests == map[] && flow.ordinary.None? && flow.cancel.None?
    {
      Pending(flow, log, ready);
      hide Clean, Tracks;
      var ok := ClientFrame(id, Cancel(target));
      ok := WorkerFrame(Reply(target, worked, true));
      ok := WorkerFrame(Reply(id, true, true));
      assert flow.requests.Keys == {};
    }

    /** Any interleaving of the two directions and of closing, up to the first rejected frame. */
    method Run(frames: seq<Frame>)
      requires Valid() && !failed
      modifies this
      ensures Clean(log, ready) && (!failed ==> Tracks(flow, log, ready))
    {
      hide Clean, Tracks;
      for i := 0 to |frames|
        invariant Valid() && !failed
      {
        var ok := true;
        match frames[i] {
          case FromClient(id, op) => ok := ClientFrame(id, op);
          case FromWorker(reply) => ok := WorkerFrame(reply);
          case Close => var mode := BeginClosing();
        }
        if !ok { return; }
      }
    }
  }
}
