/** Relay and worker joined by two queues: when does the relay find the worker's next answer
    in order? */
module Conversation {
  import opened Options
  import Relay
  import WorkerLoop

  function LogIds(log: seq<Relay.Forward>): (ids: seq<nat>)
    ensures |ids| == |log| && forall i :: 0 <= i < |log| ==> ids[i] == log[i].id
  {
    seq(|log|, i requires 0 <= i < |log| => log[i].id)
  }

  /** The identifiers forwarded but not yet answered at the relay. */
  function Unanswered(log: seq<Relay.Forward>, answered: nat): set<nat> {
    set i | answered <= i < |log| :: log[i].id
  }

  /** Frames reach the worker in the order forwarded, and its answers reach the relay in the order written:
      `inbox` is on its way to the worker, and the relay has read the first `answered` answers. */
  ghost predicate InStep(f: Relay.Flow, log: seq<Relay.Forward>, answered: nat, requests: seq<nat>, inbox: seq<nat>,
                         responses: seq<WorkerLoop.Response>) {
    && answered <= |responses| <= |log|
    && (forall i :: 0 <= i < |log| ==> log[i].id <= f.lastId)
    && (forall i, j :: 0 <= i < j < |log| ==> log[i].id < log[j].id)
    && f.requests.Keys == Unanswered(log, answered)
    && LogIds(log) == requests + inbox && WorkerLoop.Ids(responses) <= requests
  }

  lemma NextIs(f: Relay.Flow, log: seq<Relay.Forward>, answered: nat, requests: seq<nat>, inbox: seq<nat>,
               responses: seq<WorkerLoop.Response>)
    requires InStep(f, log, answered, requests, inbox, responses) && answered < |responses|
    ensures responses[answered].id == log[answered].id
  {
    assert WorkerLoop.Ids(responses)[answered] == requests[answered] == LogIds(log)[answered];
  }

  /** The relay forwards one more frame. */
  lemma ForwardInStep(f: Relay.Flow, log: seq<Relay.Forward>, answered: nat, requests: seq<nat>, inbox: seq<nat>,
                      responses: seq<WorkerLoop.Response>, id: nat, op: Relay.Op)
    requires InStep(f, log, answered, requests, inbox, responses) && id > f.lastId
    ensures InStep(Relay.Forwarded(f, id, op), log + [Relay.Forward(id, op, f.closing)], answered, requests,
                   inbox + [id], responses)
  {
    var more := log + [Relay.Forward(id, op, f.closing)];
    assert LogIds(more) == LogIds(log) + [id];
    forall x | x in Unanswered(log, answered) + {id} ensures x in Unanswered(more, answered) {
      if x == id {
        assert more[|log|].id == id;
      } else {
        var i :| answered <= i < |log| && log[i].id == x;
        assert more[i].id == x;
      }
    }
    assert Unanswered(more, answered) == Unanswered(log, answered) + {id};
  }

  /** The worker takes one request, or writes answers in the order its own loop keeps. */
  lemma WorkerInStep(f: Relay.Flow, log: seq<Relay.Forward>, answered: nat, requests: seq<nat>, inbox: seq<nat>,
                     responses: seq<WorkerLoop.Response>,
                     requests': seq<nat>, inbox': seq<nat>, responses': seq<WorkerLoop.Response>,
                     commands: seq<WorkerLoop.Command>)
    requires InStep(f, log, answered, requests, inbox, responses)
    requires requests' + inbox' == requests + inbox && responses <= responses'
    requires WorkerLoop.Orderly(requests', responses', commands)
    ensures InStep(f, log, answered, requests', inbox', responses')
  {}

  /** The relay reads the next answer. */
  lemma ReplyInStep(f: Relay.Flow, log: seq<Relay.Forward>, answered: nat, requests: seq<nat>, inbox: seq<nat>,
                    responses: seq<WorkerLoop.Response>, reply: Relay.Reply)
    requires InStep(f, log, answered, requests, inbox, responses) && answered < |responses|
    requires reply.id == responses[answered].id
    ensures reply.id in f.requests && InStep(Relay.Settled(f, reply), log, answered + 1, requests, inbox, responses)
  {
    NextIs(f, log, answered, requests, inbox, responses);
    assert log[answered].id in Unanswered(log, answered);
    forall x | x in Unanswered(log, answered) - {reply.id} ensures x in Unanswered(log, answered + 1) {
      var i :| answered <= i < |log| && log[i].id == x;
      assert i != answered;
    }
    assert Unanswered(log, answered + 1) == Unanswered(log, answered) - {reply.id};
  }

  /** A client sent a new call before its cancellation was answered. */
  predicate Overtaken(f: Relay.Flow) {
    f.ordinary.Some? && f.cancel.Some? && f.cancel.value < f.ordinary.value
  }

  /** The worker's next answer is found in order unless a new call overtook an unanswered cancellation. */
  lemma NextCorrelates(f: Relay.Flow, log: seq<Relay.Forward>, ready: nat, answered: nat, requests: seq<nat>,
                       inbox: seq<nat>, responses: seq<WorkerLoop.Response>)
    requires InStep(f, log, answered, requests, inbox, responses) && answered < |responses|
    requires Relay.Tracks(f, log, ready)
    ensures Relay.Correlates(f, responses[answered].id) <==> !Overtaken(f)
  {
    NextIs(f, log, answered, requests, inbox, responses);
    var next := log[answered].id;
    assert next in Unanswered(log, answered);
    forall x | x in f.requests ensures next <= x {
      var i :| answered <= i < |log| && log[i].id == x;
    }
    assert f.ordinary.Some? ==> f.ordinary.value in f.requests;
    assert f.cancel.Some? ==> f.cancel.value in f.requests;
  }

  // ---- one conversation ----

  /** A client frame on its way to the worker. */
  datatype Frame = Frame(id: nat, operation: WorkerLoop.Operation)

  /** What the relay sees of an operation. */
  function OpOf(operation: WorkerLoop.Operation): Relay.Op {
    match operation
    case AskHello(_) => Relay.Hello
    case AskCreate => Relay.Create
    case AskInvoke(_, _, _) => Relay.Other
    case AskObserve => Relay.Other
    case AskDispose => Relay.Dispose
    case AskCancel(target) => Relay.Cancel(target)
  }

  function FrameIds(frames: seq<Frame>): (ids: seq<nat>)
    ensures |ids| == |frames| && forall i :: 0 <= i < |ids| ==> ids[i] == frames[i].id
  {
    seq(|frames|, i requires 0 <= i < |frames| => frames[i].id)
  }

  /** Both ends and what is on its way between them. */
  datatype View = View(flow: Relay.Flow, log: seq<Relay.Forward>, answered: nat, inbox: seq<Frame>,
                       pending: Option<WorkerLoop.Pending>,
                       lastId: nat, requests: seq<nat>, responses: seq<WorkerLoop.Response>)

  /** An unanswered cancellation sent after the pending call is for that call. */
  predicate CancelAims(f: Relay.Flow) {
    f.cancel.Some? && f.ordinary.Some? && f.cancel.value > f.ordinary.value && f.cancel.value in f.requests ==>
      f.requests[f.cancel.value] == Relay.Cancel(f.ordinary.value)
  }

  ghost predicate InboxFits(v: View) {
    forall i :: 0 <= i < |v.inbox| ==>
                  v.inbox[i].id in v.flow.requests && v.flow.requests[v.inbox[i].id] == OpOf(v.inbox[i].operation)
  }

  ghost predicate PendingFits(v: View) {
    v.pending.Some? ==>
      && v.pending.value.id in v.flow.requests && !v.flow.requests[v.pending.value.id].Cancel?
      && |v.requests| == |v.responses| + 1 && v.requests[|v.requests| - 1] == v.pending.value.id
  }

  ghost predicate LastFits(v: View) {
    && v.lastId == (if v.requests == [] then 0 else v.requests[|v.requests| - 1])
    && forall i :: 0 <= i < |v.log| ==> v.log[i].id > 0
  }

  ghost predicate Joint(v: View) {
    && StepsTogether(v)
    && CancelAims(v.flow) && InboxFits(v) && PendingFits(v) && LastFits(v)
  }

  ghost predicate StepsTogether(v: View) {
    InStep(v.flow, v.log, v.answered, v.requests, FrameIds(v.inbox), v.responses)
  }

  lemma ForwardTogether(v: View, id: nat, operation: WorkerLoop.Operation)
    requires StepsTogether(v) && id > v.flow.lastId
    ensures StepsTogether(v.(flow := Relay.Forwarded(v.flow, id, OpOf(operation)),
                             log := v.log + [Relay.Forward(id, OpOf(operation), v.flow.closing)],
                             inbox := v.inbox + [Frame(id, operation)]))
    ensures forall x :: x in v.flow.requests ==> x <= v.flow.lastId
  {
    assert FrameIds(v.inbox + [Frame(id, operation)]) == FrameIds(v.inbox) + [id];
    KnownBelow(v);
    hide InStep;
    ForwardInStep(v.flow, v.log, v.answered, v.requests, FrameIds(v.inbox), v.responses, id, OpOf(operation));
  }

  lemma KnownBelow(v: View)
    requires StepsTogether(v)
    ensures forall x :: x in v.flow.requests ==> x <= v.flow.lastId
  {
    forall x | x in v.flow.requests ensures x <= v.flow.lastId {
      var i :| v.answered <= i < |v.log| && v.log[i].id == x;
    }
  }

  lemma JointForward(v: View, id: nat, operation: WorkerLoop.Operation)
    requires Joint(v) && id > v.flow.lastId && Relay.Acceptable(v.flow, OpOf(operation))
    ensures Joint(v.(flow := Relay.Forwarded(v.flow, id, OpOf(operation)),
                     log := v.log + [Relay.Forward(id, OpOf(operation), v.flow.closing)],
                     inbox := v.inbox + [Frame(id, operation)]))
  {
    hide StepsTogether;
    ForwardTogether(v, id, operation);
  }

  /** The next frame has a new number, and a busy worker is only ever sent the cancellation of what it is doing. */
  lemma NextFrame(v: View)
    requires Joint(v) && v.inbox != []
    requires Relay.TableExact(v.flow.requests, v.flow.ordinary, v.flow.cancel, v.flow.lastId)
    ensures v.inbox[0].id > v.lastId
    ensures v.pending.Some? ==> v.inbox[0].operation == WorkerLoop.AskCancel(v.pending.value.id)
  {
    var n := |v.requests|;
    assert LogIds(v.log)[n] == FrameIds(v.inbox)[0] == v.inbox[0].id;
    assert n > 0 ==> LogIds(v.log)[n - 1] == v.requests[n - 1];
    if v.pending.Some? { BusyFrame(v); }
  }

  lemma BusyFrame(v: View)
    requires CancelAims(v.flow) && InboxFits(v) && PendingFits(v) && v.inbox != [] && v.pending.Some?
    requires v.inbox[0].id > v.pending.value.id
    requires Relay.TableExact(v.flow.requests, v.flow.ordinary, v.flow.cancel, v.flow.lastId)
    ensures v.inbox[0].operation == WorkerLoop.AskCancel(v.pending.value.id)
  {
    assert v.flow.ordinary == Some(v.pending.value.id);
    assert v.flow.cancel == Some(v.inbox[0].id);
  }

  /** The worker takes the next frame. */
  lemma JointTook(v: View, w: View, commands: seq<WorkerLoop.Command>)
    requires Joint(v) && v.inbox != [] && w.flow == v.flow && w.log == v.log && w.answered == v.answered
    requires w.inbox == v.inbox[1..]
    requires w.requests == v.requests + [v.inbox[0].id] && w.lastId == v.inbox[0].id && v.responses <= w.responses
    requires WorkerLoop.Orderly(w.requests, w.responses, commands)
    requires w.pending.Some? ==>
               && w.pending.value.id == v.inbox[0].id && !OpOf(v.inbox[0].operation).Cancel?
               && WorkerLoop.Correlated(w.requests, w.responses, w.pending)
    ensures Joint(w)
  {
    hide StepsTogether, WorkerLoop.Orderly;
    TookTogether(v, w, commands);
    assert forall i :: 0 <= i < |w.inbox| ==> w.inbox[i] == v.inbox[i + 1];
  }

  lemma TookTogether(v: View, w: View, commands: seq<WorkerLoop.Command>)
    requires StepsTogether(v) && v.inbox != [] && w.flow == v.flow && w.log == v.log && w.answered == v.answered
    requires w.inbox == v.inbox[1..]
    requires w.requests == v.requests + [v.inbox[0].id] && v.responses <= w.responses
    requires WorkerLoop.Orderly(w.requests, w.responses, commands)
    ensures StepsTogether(w)
  {
    hide InStep, WorkerLoop.Orderly, FrameIds;
    TakenIds(v.requests, v.inbox);
    WorkerInStep(v.flow, v.log, v.answered, v.requests, FrameIds(v.inbox), v.responses, w.requests, FrameIds(w.inbox),
                 w.responses, commands);
  }

  lemma TakenIds(requests: seq<nat>, inbox: seq<Frame>)
    requires inbox != []
    ensures (requests + [inbox[0].id]) + FrameIds(inbox[1..]) == requests + FrameIds(inbox)
  {}

  /** A callback of the worker completes. */
  lemma JointCompleted(v: View, w: View, commands: seq<WorkerLoop.Command>)
    requires Joint(v) && w == v.(pending := w.pending, responses := w.responses) && v.responses <= w.responses
    requires WorkerLoop.Orderly(w.requests, w.responses, commands)
    requires w.pending.None? || (w.pending == v.pending && w.responses == v.responses)
    ensures Joint(w)
  {
    WorkerInStep(v.flow, v.log, v.answered, v.requests, FrameIds(v.inbox), v.responses, w.requests, FrameIds(w.inbox),
                 w.responses, commands);
  }

  /** The relay reads the next answer. */
  lemma JointRead(v: View, reply: Relay.Reply)
    requires Joint(v) && v.answered < |v.responses| && reply.id == v.responses[v.answered].id
    ensures reply.id in v.flow.requests && Joint(v.(flow := Relay.Settled(v.flow, reply), answered := v.answered + 1))
  {
    hide StepsTogether;
    ReadTogether(v, reply);
    ReadApart(v, reply.id);
  }

  lemma ReadTogether(v: View, reply: Relay.Reply)
    requires StepsTogether(v) && v.answered < |v.responses| && reply.id == v.responses[v.answered].id
    ensures reply.id in v.flow.requests && StepsTogether(v.(flow := Relay.Settled(v.flow, reply),
                                                            answered := v.answered + 1))
  {
    hide InStep;
    ReplyInStep(v.flow, v.log, v.answered, v.requests, FrameIds(v.inbox), v.responses, reply);
  }

  /** The answer read is neither to a frame on its way nor to what the worker is doing. */
  lemma ReadApart(v: View, id: nat)
    requires StepsTogether(v) && PendingFits(v) && v.answered < |v.responses| && id == v.responses[v.answered].id
    ensures forall i :: 0 <= i < |v.inbox| ==> v.inbox[i].id != id
    ensures v.pending.Some? ==> v.pending.value.id != id
  {
    var at, ids := v.answered, LogIds(v.log);
    assert ids == v.requests + FrameIds(v.inbox);
    assert WorkerLoop.Ids(v.responses)[at] == v.requests[at] == ids[at] == id;
    assert forall i, j :: 0 <= i < j < |ids| ==> ids[i] < ids[j];
    hide InStep, LogIds;
    forall i | 0 <= i < |v.inbox| ensures v.inbox[i].id != id {
      assert ids[|v.requests| + i] == v.inbox[i].id;
    }
    if v.pending.Some? { assert ids[|v.requests| - 1] == v.pending.value.id; }
  }

  /** A relay and a worker with the pipes between them. */
  class Link {
    const relay: Relay.WorkerFlow
    const worker: WorkerLoop.Worker
    var inbox: seq<Frame>
    var answered: nat

    ghost function Now(): View
      reads this, relay, worker
    {
      View(relay.flow, relay.log, answered, inbox, worker.pending, worker.lastId, worker.requests, worker.responses)
    }

    ghost predicate Valid()
      reads this, relay, worker
    {
      relay.Valid() && worker.Valid() && (!relay.failed && !worker.ended ==> Joint(Now()))
    }

    constructor (room: nat)
      ensures Valid() && fresh(relay) && fresh(worker) && !relay.failed && !worker.ended && inbox == [] && answered == 0
      ensures relay.flow == Relay.Start() && relay.log == [] && worker.state.Hello? && worker.pending.None?
      ensures worker.room == room
      ensures worker.lastId == 0 && worker.requests == [] && worker.responses == []
    {
      relay := new Relay.WorkerFlow();
      worker := new WorkerLoop.Worker(room);
      inbox, answered := [], 0;
    }

    ghost predicate Going()
      reads relay, worker
    {
      !relay.failed && !worker.ended
    }

    /** The client's next frame, let through or rejected. */
    method Send(id: nat, operation: WorkerLoop.Operation) returns (ok: bool)
      requires Valid() && Going()
      modifies this, relay
      ensures Valid() && answered == old(answered) && relay.failed == !ok
      ensures ok <==> old(id > relay.flow.lastId
                          && (relay.flow.closing ==> Relay.AllowedWhileClosing(relay.flow, OpOf(operation)))
                          && Relay.Acceptable(relay.flow, OpOf(operation)))
      ensures ok ==> inbox == old(inbox) + [Frame(id, operation)]
                     && relay.flow == Relay.Forwarded(old(relay.flow), id, OpOf(operation))
    {
      hide Joint;
      ghost var v := Now();
      ok := relay.ClientFrame(id, OpOf(operation));
      if ok {
        inbox := inbox + [Frame(id, operation)];
        JointForward(v, id, operation);
      }
    }

    /** The worker takes the next frame. It is never sent a second call while it is busy. */
    method Take()
      requires Valid() && Going() && inbox != []
      modifies this, worker
      ensures Valid() && relay.flow == old(relay.flow) && answered == old(answered) && inbox == old(inbox)[1..]
      ensures old(worker.pending.Some?) ==>
                old(inbox)[0].operation == WorkerLoop.AskCancel(old(worker.pending).value.id)
      ensures worker.requests == old(worker.requests) + [old(inbox)[0].id] && worker.lastId == old(inbox)[0].id
      ensures old(worker.pending.None?) ==> worker.Taken(old(inbox)[0].id, old(inbox)[0].operation)
      ensures old(worker.pending.None?) ==>
                match WorkerLoop.Plan(old(worker.state), old(inbox)[0].operation)
                case Send(kind, next) =>
                  && !worker.ended && worker.state == old(worker.state) && worker.responses == old(worker.responses)
                  && worker.room == old(worker.room)
                  && worker.pending == Some(WorkerLoop.Pending(old(inbox)[0].id, next, kind.DisposeAdapter?,
                                                               kind.ObserveAdapter?))
                case choice =>
                  var answer := WorkerLoop.Response(old(inbox)[0].id, choice.Accept?);
                  && worker.state == (if choice.Accept? then WorkerLoop.Create else WorkerLoop.Poisoned)
                  && worker.pending.None? && (worker.ended <==> old(worker.room) == 0)
                  && (!worker.ended ==> worker.responses == old(worker.responses) + [answer])
                  && (!worker.ended ==> worker.room == old(worker.room) - 1)
    {
      hide Joint, WorkerLoop.Sound, WorkerLoop.Orderly, Relay.Clean, Relay.Handshake, Relay.Winding;
      ghost var v := Now();
      NextFrame(v);
      var f := inbox[0];
      if worker.pending.Some? {
        worker.OnRequestPending(f.id, f.operation);
      } else {
        worker.OnRequestIdle(f.id, f.operation);
      }
      inbox := inbox[1..];
      if !worker.ended {
        SoundParts(worker);
        JointTook(v, Now(), worker.commands);
      }
    }

    /** A callback of the worker completes. */
    method Complete(id: nat, ending: WorkerLoop.Ending)
      requires Valid() && Going()
      modifies worker
      ensures Valid() && worker.requests == old(worker.requests) && worker.lastId == old(worker.lastId)
      ensures worker.commands == old(worker.commands)
      ensures old(worker.pending.Some? && worker.pending.value.id == id && !worker.pending.value.dispose
                  && worker.room > 0) ==>
                var ok := ending.Value? && (old(worker.pending).value.observation ==> ending.valid) && ending.fits;
                && !worker.ended && worker.pending.None? && worker.room == old(worker.room) - 1
                && worker.state == (if ok then old(worker.pending).value.next else WorkerLoop.Poisoned)
                && worker.responses == old(worker.responses) + [WorkerLoop.Response(id, ok)]
    {
      hide Joint, WorkerLoop.Sound, WorkerLoop.Orderly, Relay.Clean, Relay.Tracks;
      ghost var v := Now();
      worker.OnComplete(id, ending);
      if !worker.ended { JointCompleted(v, Now(), worker.commands); }
    }

    /** The relay reads the worker's next answer, due exactly when no call overtook a cancellation. */
    method Read(fits: bool) returns (ok: bool)
      requires Valid() && Going() && answered < |worker.responses|
      modifies this, relay
      ensures Valid() && inbox == old(inbox) && relay.failed == !ok
      ensures var reply := Relay.Reply(worker.responses[old(answered)].id, worker.responses[old(answered)].ok, fits);
              && reply.id in old(relay.flow).requests
              && (ok <==> !Overtaken(old(relay.flow)) && Relay.Satisfies(old(relay.flow).requests[reply.id], reply))
              && (ok ==> relay.flow == Relay.Settled(old(relay.flow), reply) && answered == old(answered) + 1)
    {
      hide Joint, WorkerLoop.Sound, WorkerLoop.Orderly, Relay.Clean, Relay.Tracks;
      ghost var v := Now();
      var reply := Relay.Reply(worker.responses[answered].id, worker.responses[answered].ok, fits);
      ReadDue(v, relay.ready);
      JointRead(v, reply);
      ok := relay.WorkerFrame(reply);
      if ok { answered := answered + 1; }
    }

    method Close()
      requires Valid() && Going()
      modifies relay
      ensures Valid() && Going() && relay.flow == old(relay.flow).(closing := true)
    {
      hide Joint;
      ghost var v := Now();
      var mode := relay.BeginClosing();
      JointClosing(v);
    }

    /** One call through both: sent, taken, completed, answered. */
    method Call(id: nat, kind: WorkerLoop.Kind)
      requires Valid() && Going() && inbox == [] && answered == |worker.responses| && worker.room > 0
      requires id > relay.flow.lastId && !relay.flow.closing && !kind.DisposeAdapter?
      requires relay.flow.requests == map[] && relay.flow.cancel.None?
      requires worker.pending.None? && !worker.state.Hello? && !worker.state.Poisoned?
      requires Relay.Acceptable(relay.flow, OpOf(WorkerLoop.Asking(kind)))
      requires WorkerLoop.InLanguage(worker.commands + [WorkerLoop.Command(id, kind)])
      modifies this, relay, worker
      ensures Valid() && Going() && inbox == [] && answered == |worker.responses| && worker.room == old(worker.room) - 1
      ensures relay.flow.lastId == id && !relay.flow.closing && relay.flow.requests == map[]
      ensures relay.flow.ordinary.None? && relay.flow.cancel.None?
      ensures relay.flow.lifecycle == if kind.CreateAdapter? then Relay.Created else Relay.Ready
      ensures worker.commands == old(worker.commands) + [WorkerLoop.Command(id, kind)]
      ensures worker.responses == old(worker.responses) + [WorkerLoop.Response(id, true)]
      ensures worker.pending.None? && !worker.state.Hello? && !worker.state.Poisoned?
    {
      hide Joint, WorkerLoop.Sound, WorkerLoop.Orderly, WorkerLoop.InLanguage, Relay.Clean, Relay.Tracks;
      var ok := Send(id, WorkerLoop.Asking(kind));
      Take();
      worker.NextOpen();
      Complete(id, WorkerLoop.Value(true, true));
      ok := Read(true);
      assert relay.flow.requests.Keys == {};
    }

    /** Every word of the command language short of its disposal goes through relay and worker together: each frame is
        let through, each command sent, each answer a success and accepted. */
    method Serve(hello: nat, wanted: seq<WorkerLoop.Command>)
      requires Valid() && Going() && inbox == [] && answered == 0 && relay.flow == Relay.Start()
      requires worker.state.Hello? && worker.pending.None? && worker.lastId == 0
      requires worker.commands == [] && worker.responses == []
      requires WorkerLoop.Word(hello, wanted) && worker.room > |wanted|
      requires forall k :: 0 <= k < |wanted| ==> !wanted[k].kind.DisposeAdapter?
      modifies this, relay, worker
      ensures Valid() && Going() && inbox == [] && answered == |worker.responses|
      ensures worker.commands == wanted && worker.responses == WorkerLoop.Answers(hello, wanted, |wanted|)
      ensures relay.flow.requests == map[]
    {
      hide Joint, WorkerLoop.Sound, WorkerLoop.Orderly, WorkerLoop.InLanguage, Relay.Clean, Relay.Tracks;
      Hail(hello);
      for k := 0 to |wanted|
        invariant Valid() && Going() && inbox == [] && answered == |worker.responses| && worker.room >= |wanted| - k
        invariant relay.flow.lastId == (if k == 0 then hello else wanted[k - 1].id) && !relay.flow.closing
        invariant relay.flow.requests == map[] && relay.flow.ordinary.None? && relay.flow.cancel.None?
        invariant relay.flow.lifecycle
               == if k == 0 then Relay.AwaitCreate else if k == 1 then Relay.Created else Relay.Ready
        invariant worker.commands == wanted[..k] && worker.responses == WorkerLoop.Answers(hello, wanted, k)
        invariant worker.pending.None? && !worker.state.Hello? && !worker.state.Poisoned?
      {
        WorkerLoop.WordPrefix(wanted, k);
        WordKind(wanted, k);
        Call(wanted[k].id, wanted[k].kind);
      }
      assert wanted[..|wanted|] == wanted;
    }

    /** The handshake through both. */
    method Hail(hello: nat)
      requires Valid() && Going() && inbox == [] && answered == 0 && relay.flow == Relay.Start() && hello > 0
      requires worker.state.Hello? && worker.pending.None? && worker.lastId == 0 && worker.room > 0
      requires worker.commands == [] && worker.responses == []
      modifies this, relay, worker
      ensures Valid() && Going() && inbox == [] && answered == 1 && worker.room == old(worker.room) - 1
      ensures relay.flow == Relay.Start().(lastId := hello, lifecycle := Relay.AwaitCreate)
      ensures worker.commands == [] && worker.responses == [WorkerLoop.Response(hello, true)]
      ensures worker.state.Create? && worker.pending.None?
    {
      hide Joint, WorkerLoop.Sound, WorkerLoop.Orderly, WorkerLoop.InLanguage, Relay.Clean, Relay.Tracks;
      var ok := Send(hello, WorkerLoop.AskHello(true));
      Take();
      ok := Read(true);
      assert relay.flow == Relay.Start().(lastId := hello, lifecycle := Relay.AwaitCreate);
    }

    /** Any interleaving of client, relay and worker, up to the first rejected frame or the end of the worker. */
    method Converse(steps: seq<Step>)
      requires Valid() && Going()
      modifies this, relay, worker
      ensures Valid() && Relay.Clean(relay.log, relay.ready)
      ensures WorkerLoop.Orderly(worker.requests, worker.responses, worker.commands)
      ensures Going() ==> Joint(Now())
    {
      hide Joint, WorkerLoop.Sound, WorkerLoop.Orderly, Relay.Clean, Relay.Tracks;
      for i := 0 to |steps|
        invariant Valid() && Going()
      {
        match steps[i] {
          case Sends(id, operation) => var ok := Send(id, operation);
          case Takes => if inbox != [] { Take(); }
          case Completes(id, ending) => Complete(id, ending);
          case Reads(fits) => if answered < |worker.responses| { var ok := Read(fits); }
          case Closes => Close();
        }
        if relay.failed || worker.ended { return; }
      }
    }
  }

  datatype Step =
    | Sends(id: nat, operation: WorkerLoop.Operation) | Takes | Completes(id: nat, ending: WorkerLoop.Ending)
    | Reads(fits: bool) | Closes

  /** Only the first command of a word creates. */
  lemma WordKind(wanted: seq<WorkerLoop.Command>, k: nat)
    requires k < |wanted| && WorkerLoop.InLanguage(wanted) && !wanted[k].kind.DisposeAdapter?
    ensures wanted[k].kind.CreateAdapter? <==> k == 0
  {}

  lemma SoundParts(w: WorkerLoop.Worker)
    requires w.Valid() && !w.ended
    ensures WorkerLoop.Orderly(w.requests, w.responses, w.commands)
    ensures WorkerLoop.Correlated(w.requests, w.responses, w.pending)
  {}

  lemma ReadDue(v: View, ready: nat)
    requires Joint(v) && v.answered < |v.responses| && Relay.Tracks(v.flow, v.log, ready)
    ensures Relay.Correlates(v.flow, v.responses[v.answered].id) <==> !Overtaken(v.flow)
  {
    NextCorrelates(v.flow, v.log, ready, v.answered, v.requests, FrameIds(v.inbox), v.responses);
  }

  lemma JointClosing(v: View)
    requires Joint(v)
    ensures Joint(v.(flow := v.flow.(closing := true)))
  {}

  /** The handshake is over and nothing is under way. */
  ghost predicate Greeted(link: Link)
    reads link, link.relay, link.worker
  {
    && link.Valid() && link.Going() && link.inbox == [] && link.answered == 2 && |link.worker.responses| == 2
    && link.relay.flow == Relay.Start().(lastId := 2, lifecycle := Relay.Created)
    && link.worker.state.Initialize? && link.worker.pending.None? && link.worker.room == 2
  }

  method Greet() returns (link: Link)
    ensures Greeted(link) && fresh(link) && fresh(link.relay) && fresh(link.worker)
  {
    hide Joint, WorkerLoop.Sound, WorkerLoop.Orderly, Relay.Clean, Relay.Tracks, Link.Valid;
    link := new Link(4);
    var ok := link.Send(1, WorkerLoop.AskHello(true));
    link.Take();
    ok := link.Read(true);
    assert link.relay.flow == Relay.Start().(lastId := 1, lifecycle := Relay.AwaitCreate);
    ok := link.Send(2, WorkerLoop.AskCreate);
    link.Take();
    link.Complete(2, WorkerLoop.Value(true, true));
    ok := link.Read(true);
    assert link.relay.flow == Relay.Start().(lastId := 2, lifecycle := Relay.Created);
  }

  /** A call has succeeded at the relay, its cancellation is on its way to the worker, and the relay took the next
      call. */
  method CallAndCancel(link: Link)
    requires Greeted(link)
    modifies link, link.relay, link.worker
    ensures link.Valid() && link.Going() && link.answered == 3 && |link.worker.responses| == 3 && link.inbox != []
    ensures link.relay.flow.ordinary == Some(5) && link.relay.flow.cancel == Some(4)
    ensures link.inbox[0] == Frame(4, WorkerLoop.AskCancel(3)) && link.worker.pending.None? && link.worker.room == 1
  {
    hide Joint, WorkerLoop.Sound, WorkerLoop.Orderly, Relay.Clean, Relay.Tracks, Link.Valid;
    var ok := link.Send(3, WorkerLoop.AskInvoke(true, true, true));
    link.Take();
    ok := link.Send(4, WorkerLoop.AskCancel(3));
    link.Complete(3, WorkerLoop.Value(true, true));
    ok := link.Read(true);
    ok := link.Send(5, WorkerLoop.AskObserve);
  }

  /** Which the relay lets happen: after the handshake a call succeeds before the worker sees its cancellation, and
      the relay takes the next call; the worker then answers the cancellation, and the relay refuses the answer. */
  method OvertakingHappens() returns (link: Link, accepted: bool)
    ensures link.Valid() && !accepted && link.relay.failed && !link.worker.ended
  {
    hide Joint, WorkerLoop.Sound, WorkerLoop.Orderly, Relay.Clean, Relay.Tracks, Link.Valid;
    link := Greet();
    CallAndCancel(link);
    link.Take();
    accepted := link.Read(true);
  }
}
