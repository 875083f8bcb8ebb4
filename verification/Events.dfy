/** The event stream of one control connection: numbering, deferral behind responses, and
    the notices that may be sent only once. */
module Events {
  import opened Options

  datatype Name =
    | OperationFinished(session: nat, operation: nat)
    | SessionClosed(session: nat)
    | AgentUpdated(session: nat)
    | AgentFinished(session: nat)
    | Other(text: string)

  /** An event with its sequence number and the request under dispatch when it was numbered. */
  datatype Event = Event(number: nat, name: Name, during: Option<nat>)

  /** A thread whose start was deferred, with the request that spawned it. */
  datatype Work = Work(id: nat, during: Option<nat>)

  /** What leaves the controller, in order. */
  datatype Entry = Response(id: nat) | Emitted(event: Event) | Started(work: Work) | Closing

  /** The connection lock's state; `inflight` and `starting` belong to the holder of the event lock. */
  datatype Wire = Wire(log: seq<Entry>, number: nat, inflight: seq<Event>, starting: seq<Work>,
                       queued: seq<Event>, starts: seq<Work>, dispatching: Option<nat>, closed: bool)

  /** The notice flags kept under the session locks. `calls` are pending attempts to announce a finished
      operation, `due` are notices flagged as sent whose events are not numbered yet. */
  datatype Notices = Notices(finished: set<Name>, advertised: set<Name>, calls: multiset<Name>,
                             notified: set<Name>, due: set<Name>, over: set<nat>, told: set<nat>)

  predicate Once(name: Name) {
    name.OperationFinished? || name.SessionClosed? || name.AgentFinished?
  }

  predicate LockFree(w: Wire) {
    w.inflight == [] && w.starting == []
  }

  // ---- the order of everything numbered ----

  function EventsOf(log: seq<Entry>): (r: seq<Event>)
    ensures |r| <= |log|
  {
    if log == [] then [] else
      var last := log[|log| - 1];
      EventsOf(log[..|log| - 1]) + if last.Emitted? then [last.event] else []
  }

  /** A numbered event waits behind the response of the request under dispatch, or is about to leave. */
  function Placed(w: Wire, e: Event): Wire {
    if w.dispatching.Some? then w.(number := w.number + 1, queued := w.queued + [e])
       else w.(number := w.number + 1, inflight := [e])
  }

  function History(w: Wire): seq<Event> {
    EventsOf(w.log) + w.inflight + w.queued
  }

  ghost predicate Numbered(events: seq<Event>) {
    forall i :: 0 <= i < |events| ==> events[i].number == i + 1
  }

  lemma Logged(log: seq<Entry>, x: Entry)
    ensures x.Emitted? ==> EventsOf(log + [x]) == EventsOf(log) + [x.event]
    ensures !x.Emitted? ==> EventsOf(log + [x]) == EventsOf(log)
  {
    assert (log + [x])[..|log|] == log;
  }

  // ---- answers come first ----

  predicate Excused(log: seq<Entry>, r: Option<nat>) {
    r.None? || Response(r.value) in log || Closing in log
  }

  function Owner(x: Entry): Option<nat> {
    match x
    case Emitted(e) => e.during
    case Started(work) => work.during
    case _ => None
  }

  /** An event numbered, or a thread deferred, while a request was under dispatch. */
  predicate Stamped(x: Entry, r: nat) {
    x.Emitted? && x.event.during == Some(r)
  }

  predicate Deferred(x: Entry, r: nat) {
    x.Started? && x.work.during == Some(r)
  }

  /** Whatever a dispatch produced leaves after that request's response, or after the connection began to close. */
  ghost predicate Answered(log: seq<Entry>) {
    forall i :: 0 <= i < |log| ==> Excused(log[..i], Owner(log[i]))
  }

  ghost predicate WireOk(w: Wire) {
    && Numbered(History(w)) && |History(w)| == w.number
    && Answered(w.log)
    && (forall e :: e in w.inflight ==> Excused(w.log, e.during))
    && (forall k :: k in w.starting ==> Excused(w.log, k.during))
    && (forall e :: e in w.queued ==> e.during == w.dispatching)
    && (forall k :: k in w.starts ==> k.during == w.dispatching)
    && (w.dispatching.None? ==> w.queued == [] && w.starts == [])
    && (w.closed <==> Closing in w.log)
  }

  lemma AnsweredMore(log: seq<Entry>, x: Entry)
    requires Answered(log) && Excused(log, Owner(x))
    ensures Answered(log + [x])
  {
    var more := log + [x];
    forall i | 0 <= i < |more| ensures Excused(more[..i], Owner(more[i])) {
      if i < |log| {
        assert more[..i] == log[..i];
      } else {
        assert more[..i] == log;
      }
    }
  }

  // ---- one-time notices ----

  ghost predicate OnceEach(events: seq<Event>) {
    forall i, j :: 0 <= i < j < |events| && Once(events[i].name) ==> events[i].name != events[j].name
  }

  ghost predicate NoneAfterFinish(events: seq<Event>) {
    forall i, j :: 0 <= i < j < |events| && events[i].name.AgentFinished? ==>
                     events[j].name != AgentUpdated(events[i].name.session)
  }

  ghost predicate Announced(events: seq<Event>, name: Name) {
    exists i :: 0 <= i < |events| && events[i].name == name
  }

  /** Whether a notice flagged now can still be dropped: everything but `session.closed` is, on a closed connection. */
  predicate Kept(closed: bool, name: Name) {
    !closed || name.SessionClosed?
  }

  ghost predicate FlagsOk(n: Notices) {
    && n.due <= n.notified && n.told <= n.over
    && (forall name :: name in n.notified ==> name.OperationFinished? || name.SessionClosed?)
    && (forall name :: name in n.calls ==> name in n.finished)
    && (forall name :: name in n.finished && name in n.advertised ==> name in n.notified || name in n.calls)
    && (forall name :: name in n.finished ==> name.OperationFinished?)
    && (forall name :: name in n.notified && name.OperationFinished? ==> name in n.finished && name in n.advertised)
  }

  ghost predicate NoticesOk(n: Notices, events: seq<Event>, closed: bool) {
    && OnceEach(events) && NoneAfterFinish(events)
    && (forall i :: 0 <= i < |events| && events[i].name.AgentFinished? ==> events[i].name.session in n.told)
    && (forall i :: 0 <= i < |events| && Once(events[i].name) && !events[i].name.AgentFinished? ==>
          events[i].name in n.notified && events[i].name !in n.due)
    && (forall name :: name in n.notified && Kept(closed, name) ==> name in n.due || Announced(events, name))
    && (forall s :: s in n.told && !closed ==> Announced(events, AgentFinished(s)))
  }

  /** What may be numbered next: a due notice, a first farewell, an update of a run still going, or anything plain. */
  predicate MayNumber(n: Notices, name: Name) {
    match name
    case AgentUpdated(s) => s !in n.over
    case AgentFinished(s) => s in n.over && s !in n.told
    case Other(_) => true
    case _ => name in n.due
  }

  /** The flags once the event is numbered or dropped. */
  function Settle(n: Notices, name: Name): Notices {
    match name
    case AgentFinished(s) => n.(told := n.told + {s})
    case AgentUpdated(_) => n
    case Other(_) => n
    case _ => n.(due := n.due - {name})
  }

  lemma AppendOnce(n: Notices, events: seq<Event>, closed: bool, e: Event)
    requires FlagsOk(n) && NoticesOk(n, events, closed) && MayNumber(n, e.name)
    ensures OnceEach(events + [e]) && NoneAfterFinish(events + [e])
  {}

  lemma AppendKeeps(n: Notices, events: seq<Event>, closed: bool, e: Event)
    requires FlagsOk(n) && NoticesOk(n, events, closed) && MayNumber(n, e.name)
    ensures FlagsOk(Settle(n, e.name)) && NoticesOk(Settle(n, e.name), events + [e], closed)
  {
    AppendOnce(n, events, closed, e);
    var more, m := events + [e], Settle(n, e.name);
    assert more[|events|] == e;
    forall name | Announced(events, name) ensures Announced(more, name) {
      var i :| 0 <= i < |events| && events[i].name == name;
      assert more[i].name == name;
    }
    assert Announced(more, e.name);
    forall name | name in m.notified && Kept(closed, name) ensures name in m.due || Announced(more, name) {
      assert name in n.notified;
    }
  }

  lemma DropKeeps(n: Notices, events: seq<Event>, name: Name)
    requires FlagsOk(n) && NoticesOk(n, events, true) && MayNumber(n, name) && !name.SessionClosed?
    ensures FlagsOk(Settle(n, name)) && NoticesOk(Settle(n, name), events, true)
  {}

  /** With nothing pending on an open connection, every finished and advertised operation has been announced exactly
      once. */
  lemma ExactlyOnce(w: Wire, n: Notices, name: Name)
    requires WireOk(w) && FlagsOk(n) && NoticesOk(n, History(w), w.closed)
    requires !w.closed && n.calls == multiset{} && n.due == {} && w.inflight == [] && w.queued == []
    requires name in n.finished && name in n.advertised
    ensures exists i :: 0 <= i < |EventsOf(w.log)| && EventsOf(w.log)[i].name == name
                        && EventsOf(w.log)[i].number == i + 1
                        && (forall j :: 0 <= j < |EventsOf(w.log)| && EventsOf(w.log)[j].name == name ==> i == j)
  {
    var events := EventsOf(w.log);
    assert History(w) == events;
    assert Announced(events, name);
    var i :| 0 <= i < |events| && events[i].name == name;
    forall j | 0 <= j < |events| && events[j].name == name ensures i == j {
      if i < j {
        assert Once(events[i].name);
      } else if j < i {
        assert Once(events[j].name);
      }
    }
    assert events[i].number == i + 1;
  }

  lemma StartOk()
    ensures var w := Wire([], 0, [], [], [], [], None, false); WireOk(w) && History(w) == []
    ensures var n := Notices({}, {}, multiset{}, {}, {}, {}, {}); FlagsOk(n) && NoticesOk(n, [], false)
  {}

  class Controller {
    var w: Wire
    var n: Notices
    var lastRequest: nat
    /** A request accepted under the lock, before its dispatch is marked. */
    var accepted: Option<nat>

    ghost predicate Valid()
      reads this
    {
      WireOk(w) && FlagsOk(n) && NoticesOk(n, History(w), w.closed)
    }

    constructor ()
      ensures Valid() && w == Wire([], 0, [], [], [], [], None, false) && lastRequest == 0 && accepted.None?
    {
      hide WireOk, FlagsOk, NoticesOk, History;
      StartOk();
      w := Wire([], 0, [], [], [], [], None, false);
      n := Notices({}, {}, multiset{}, {}, {}, {}, {});
      lastRequest, accepted := 0, None;
    }

    /** The lock section of `dispatch`: request numbers only grow; on a closed connection a request is only answered. */
    method Accept(id: nat)
      requires Valid() && accepted.None? && w.dispatching.None?
      modifies `w, `lastRequest, `accepted
      ensures Valid() && History(w) == old(History(w))
      ensures w == old(w).(log := old(w).log + if old(w).closed then [Response(id)] else [])
      ensures accepted == (if !old(w).closed && id > old(lastRequest) then Some(id) else None)
      ensures lastRequest == if accepted.Some? then id else old(lastRequest)
    {
      hide NoticesOk;
      if w.closed {
        LogKeeps(w, Response(id));
        w := w.(log := w.log + [Response(id)]);
      } else if id > lastRequest {
        accepted, lastRequest := Some(id), id;
      }
      assert w.log == old(w).log + if old(w).closed then [Response(id)] else [];
    }

    /** The dispatcher marks itself after releasing the lock; the connection may have been closed since. */
    method Mark()
      requires Valid() && accepted.Some? && w.dispatching.None?
      modifies `w, `accepted
      ensures Valid() && History(w) == old(History(w)) && w == old(w).(dispatching := old(accepted)) && accepted.None?
    {
      w := w.(dispatching := accepted);
      accepted := None;
    }

    /** A malformed request uses up its number and is answered without a dispatch. */
    method Reject(id: nat) returns (taken: bool)
      requires Valid() && w.dispatching.None?
      modifies `w, `lastRequest
      ensures Valid() && History(w) == old(History(w))
      ensures taken <==> id > old(lastRequest)
      ensures w == old(w).(log := old(w).log + if taken then [Response(id)] else [])
      ensures lastRequest == if taken then id else old(lastRequest)
    {
      hide NoticesOk;
      taken := id > lastRequest;
      if taken {
        LogKeeps(w, Response(id));
        w := w.(log := w.log + [Response(id)]);
        lastRequest := id;
      }
      assert w.log == old(w).log + if taken then [Response(id)] else [];
    }

    /** The server queues the response of the dispatched request. */
    method Respond()
      requires Valid() && w.dispatching.Some?
      modifies `w
      ensures Valid() && History(w) == old(History(w))
      ensures w == old(w).(log := old(w).log + [Response(old(w).dispatching.value)])
    {
      hide NoticesOk, Answered, Numbered;
      LogKeeps(w, Response(w.dispatching.value));
      w := w.(log := w.log + [Response(w.dispatching.value)]);
    }

    /** `_event`: number the event, then emit it or queue it behind the response. */
    method Announce(name: Name)
      requires Valid() && LockFree(w) && MayNumber(n, name)
      modifies `w, `n
      ensures Valid() && n == Settle(old(n), name)
      ensures !Kept(old(w).closed, name) ==> w == old(w)
      ensures Kept(old(w).closed, name) ==> w == Placed(old(w), Event(old(w).number + 1, name, old(w).dispatching))
      ensures Kept(old(w).closed, name) ==>
                History(w) == old(History(w)) + [Event(old(w).number + 1, name, old(w).dispatching)]
    {
      hide NoticesOk, FlagsOk, Answered;
      if !Kept(w.closed, name) {
        DropKeeps(n, History(w), name);
        n := Settle(n, name);
        return;
      }
      var e := Event(w.number + 1, name, w.dispatching);
      AppendKeeps(n, History(w), w.closed, e);
      Grown(w, e);
      if w.dispatching.Some? {
        w := w.(number := w.number + 1, queued := w.queued + [e]);
      } else {
        w := w.(number := w.number + 1, inflight := [e]);
      }
      n := Settle(n, name);
    }

    /** A thread spawned by the dispatcher waits for the response; any other starts at once. */
    method Spawn(id: nat, byDispatcher: bool)
      requires Valid()
      modifies `w
      ensures Valid() && History(w) == old(History(w))
      ensures byDispatcher && w.dispatching.Some? ==> w == old(w).(starts := old(w).starts + [Work(id, w.dispatching)])
      ensures !byDispatcher || w.dispatching.None? ==> w == old(w).(log := old(w).log + [Started(Work(id, None))])
    {
      if byDispatcher && w.dispatching.Some? {
        w := w.(starts := w.starts + [Work(id, w.dispatching)]);
      } else {
        LogKeeps(w, Started(Work(id, None)));
        w := w.(log := w.log + [Started(Work(id, None))]);
      }
    }

    /** `after_response` takes the deferred events and threads; it holds the event lock until all are out. */
    method AfterResponse()
      requires Valid() && LockFree(w)
      requires w.dispatching.Some? ==> Response(w.dispatching.value) in w.log || w.closed
      modifies `w
      ensures Valid() && History(w) == old(History(w))
      ensures w == old(w).(inflight := old(w).queued, queued := [], starting := old(w).starts, starts := [],
                           dispatching := None)
    {
      hide NoticesOk, Numbered, Answered;
      ghost var before := History(w);
      w := w.(inflight := w.queued, queued := [], starting := w.starts, starts := [], dispatching := None);
      assert History(w) == before;
    }

    /** The holder of the event lock lets the next thing out: events in order, then threads. */
    method Flush()
      requires Valid() && !LockFree(w)
      modifies `w
      ensures Valid() && History(w) == old(History(w))
      ensures old(w).inflight != [] ==>
                w == old(w).(log := old(w).log + [Emitted(old(w).inflight[0])], inflight := old(w).inflight[1..])
      ensures old(w).inflight == [] ==>
                w == old(w).(log := old(w).log + [Started(old(w).starting[0])], starting := old(w).starting[1..])
    {
      hide NoticesOk, WireOk, History;
      if w.inflight != [] {
        EmitKeeps(w);
        w := w.(log := w.log + [Emitted(w.inflight[0])], inflight := w.inflight[1..]);
      } else {
        StartKeeps(w);
        w := w.(log := w.log + [Started(w.starting[0])], starting := w.starting[1..]);
      }
    }

    /** `close` marks the connection before anything is flushed. */
    method Close()
      requires Valid()
      modifies `w
      ensures Valid() && w.closed && History(w) == old(History(w))
      ensures w == if old(w).closed then old(w) else old(w).(log := old(w).log + [Closing], closed := true)
    {
      hide NoticesOk, WireOk, History;
      if !w.closed {
        CloseKeeps(w);
        KeptFewer(n, History(w), w.closed);
        w := w.(log := w.log + [Closing], closed := true);
      }
    }

    // ---- the session side ----

    /** An operation's status is set; its thread then tries to announce it. */
    method OperationEnds(session: nat, operation: nat)
      requires Valid()
      modifies `n
      ensures Valid() && OperationFinished(session, operation) in n.finished
      ensures OperationFinished(session, operation) in n.calls
      ensures n == old(n).(finished := n.finished, calls := n.calls)
      ensures n.finished == old(n).finished + {OperationFinished(session, operation)}
    {
      var name := OperationFinished(session, operation);
      hide NoticesOk;
      n := n.(finished := n.finished + {name}, calls := n.calls + multiset{name});
      SameFlags(old(n), n, History(w), w.closed);
    }

    /** A join advertises an operation; one that had already ended gets another attempt. */
    method Advertise(session: nat, operation: nat)
      requires Valid()
      modifies `n
      ensures Valid() && OperationFinished(session, operation) in n.advertised
      ensures n == old(n).(advertised := old(n).advertised + {OperationFinished(session, operation)}, calls := n.calls)
    {
      var name := OperationFinished(session, operation);
      hide NoticesOk;
      if name !in n.advertised {
        n := n.(advertised := n.advertised + {name}, calls := if name in n.finished then n.calls + multiset{name}
                else n.calls);
      }
      SameFlags(old(n), n, History(w), w.closed);
    }

    /** `_finish_event`, under the session lock: flag the notice unless hidden or flagged before. */
    method Attempt(name: Name)
      requires Valid() && name in n.calls
      modifies `n
      ensures Valid() && n.calls == old(n).calls - multiset{name}
      ensures n == old(n).(calls := n.calls, notified := n.notified, due := n.due)
      ensures name in n.advertised ==> name in n.notified
      ensures name in n.due && name !in old(n).due <==> name in n.advertised && name !in old(n).notified
    {
      if name in n.advertised && name !in n.notified {
        Flagged(n, History(w), w.closed, name);
        n := n.(calls := n.calls - multiset{name}, notified := n.notified + {name}, due := n.due + {name});
      } else {
        n := n.(calls := n.calls - multiset{name});
      }
    }

    /** `_session_closed_event`, under the session lock. */
    method SessionEnds(session: nat)
      requires Valid()
      modifies `n
      ensures Valid() && n == old(n).(notified := old(n).notified + {SessionClosed(session)}, due := n.due)
      ensures SessionClosed(session) in n.due && SessionClosed(session) !in old(n).due <==>
                SessionClosed(session) !in old(n).notified
    {
      var name := SessionClosed(session);
      if name !in n.notified {
        Flagged(n, History(w), w.closed, name);
        n := n.(notified := n.notified + {name}, due := n.due + {name});
      }
    }

    method RunEnds(session: nat)
      requires Valid()
      modifies `n
      ensures Valid() && n == old(n).(over := old(n).over + {session})
    {
      hide NoticesOk;
      n := n.(over := n.over + {session});
      SameFlags(old(n), n, History(w), w.closed);
    }

    /** `_host_event`: snapshot, flag and number in one hold of the session lock. */
    method HostEvent(session: nat)
      requires Valid() && LockFree(w)
      modifies `w, `n
      ensures Valid() && w.log == old(w).log && n == old(n).(told := n.told)
      ensures session in n.over ==> session in n.told
      ensures session in old(n).told ==> w == old(w) && n == old(n)
      ensures session !in old(n).told && !w.closed ==>
                var name := if session in n.over then AgentFinished(session) else AgentUpdated(session);
                History(w) == old(History(w)) + [Event(old(w).number + 1, name, old(w).dispatching)]
      ensures old(History(w)) <= History(w)
    {
      if session in n.over {
        if session !in n.told { Announce(AgentFinished(session)); }
      } else {
        Announce(AgentUpdated(session));
      }
    }

    method Step(step: Step)
      requires Valid()
      modifies this
      ensures Valid() && old(w).log <= w.log && old(History(w)) <= History(w)
      ensures old(w.inflight != [] || w.starting != []) && (step.Announces? || step.ReportsRun? || step.Resumes?) ==>
                w == old(w) && n == old(n)
    {
      hide WireOk, FlagsOk, NoticesOk, History;
      match step
      case Accepts(id) => if accepted.None? && w.dispatching.None? { Accept(id); }
      case Marks => if accepted.Some? && w.dispatching.None? { Mark(); }
      case Rejects(id) => if w.dispatching.None? { var _ := Reject(id); }
      case Responds => if w.dispatching.Some? { Respond(); }
      case Announces(name) =>
        if LockFree(w) && MayNumber(n, name) && !name.AgentFinished? && !name.AgentUpdated? { Announce(name); }
      case Spawns(id, byDispatcher) => Spawn(id, byDispatcher);
      case Resumes =>
        if LockFree(w) && (w.dispatching.Some? ==> Response(w.dispatching.value) in w.log || w.closed) {
          AfterResponse();
        }
      case Flushes => if !LockFree(w) { Flush(); }
      case Closes => Close();
      case EndsOperation(session, operation) => OperationEnds(session, operation);
      case Advertises(session, operation) => Advertise(session, operation);
      case Attempts(name) => if name in n.calls { Attempt(name); }
      case EndsSession(session) => SessionEnds(session);
      case EndsRun(session) => RunEnds(session);
      case ReportsRun(session) => if LockFree(w) { HostEvent(session); }
    }

    /** Any interleaving of the server loop, the operation threads and the hosts. */
    method Interleave(steps: seq<Step>)
      requires Valid()
      modifies this
      ensures Valid() && old(w).log <= w.log && old(History(w)) <= History(w)
      ensures Numbered(EventsOf(w.log) + w.inflight + w.queued) && |EventsOf(w.log) + w.inflight + w.queued| == w.number
      ensures forall i, r :: 0 <= i < |w.log| && (Stamped(w.log[i], r) || Deferred(w.log[i], r)) ==>
                               Response(r) in w.log[..i] || Closing in w.log[..i]
      ensures forall i, j :: 0 <= i < j < |History(w)| && History(w)[i].name == History(w)[j].name ==>
                               History(w)[i].name.AgentUpdated? || History(w)[i].name.Other?
      ensures NoneAfterFinish(History(w))
    {
      for i := 0 to |steps|
        invariant Valid() && old(w).log <= w.log && old(History(w)) <= History(w)
      {
        Step(steps[i]);
      }
      assert OnceEach(History(w)) && Answered(w.log);
      forall i, r | 0 <= i < |w.log| && (Stamped(w.log[i], r) || Deferred(w.log[i], r))
        ensures Response(r) in w.log[..i] || Closing in w.log[..i]
      {
        assert Excused(w.log[..i], Owner(w.log[i]));
      }
    }
  }

  /** Closing is the one way past the response: a connection that dies during a dispatch flushes what it held. */
  method ClosingFlushes(id: nat, text: string) returns (c: Controller)
    requires id > 0
    ensures c.Valid() && c.w.log == [Closing, Emitted(Event(1, Other(text), Some(id)))]
  {
    hide WireOk, FlagsOk, NoticesOk, History;
    c := new Controller();
    c.Accept(id);
    c.Mark();
    c.Announce(Other(text));
    c.Close();
    c.AfterResponse();
    c.Flush();
  }

  datatype Step =
    | Accepts(id: nat) | Marks | Rejects(id: nat) | Responds | Announces(name: Name)
    | Spawns(id: nat, byDispatcher: bool) | Resumes | Flushes | Closes
    | EndsOperation(session: nat, operation: nat) | Advertises(session: nat, operation: nat) | Attempts(name: Name)
    | EndsSession(session: nat) | EndsRun(session: nat) | ReportsRun(session: nat)

  // ---- small steps of the proofs ----

  lemma LogKeeps(w: Wire, x: Entry)
    requires WireOk(w) && Excused(w.log, Owner(x)) && (x.Response? || x.Started?)
    ensures WireOk(w.(log := w.log + [x])) && History(w.(log := w.log + [x])) == History(w)
  {
    hide Numbered, Answered, EventsOf;
    Logged(w.log, x);
    AnsweredMore(w.log, x);
  }

  lemma CloseKeeps(w: Wire)
    requires WireOk(w)
    ensures WireOk(w.(log := w.log + [Closing], closed := true))
    ensures History(w.(log := w.log + [Closing], closed := true)) == History(w)
  {
    hide Numbered, Answered, EventsOf;
    Logged(w.log, Closing);
    AnsweredMore(w.log, Closing);
  }

  lemma EmitKeeps(w: Wire)
    requires WireOk(w) && w.inflight != []
    ensures var after := w.(log := w.log + [Emitted(w.inflight[0])], inflight := w.inflight[1..]);
            WireOk(after) && History(after) == History(w)
  {
    hide Numbered, Answered, EventsOf;
    var x := Emitted(w.inflight[0]);
    Logged(w.log, x);
    AnsweredMore(w.log, x);
    assert w.inflight == [w.inflight[0]] + w.inflight[1..];
    assert EventsOf(w.log) + [w.inflight[0]] + w.inflight[1..] + w.queued == History(w);
  }

  lemma StartKeeps(w: Wire)
    requires WireOk(w) && w.starting != []
    ensures var after := w.(log := w.log + [Started(w.starting[0])], starting := w.starting[1..]);
            WireOk(after) && History(after) == History(w)
  {
    hide Numbered, Answered, EventsOf;
    var x := Started(w.starting[0]);
    Logged(w.log, x);
    AnsweredMore(w.log, x);
  }

  lemma KeptFewer(n: Notices, events: seq<Event>, closed: bool)
    requires NoticesOk(n, events, closed)
    ensures NoticesOk(n, events, true)
  {}

  lemma Grown(w: Wire, e: Event)
    requires WireOk(w) && LockFree(w) && e.number == w.number + 1 && e.during == w.dispatching
    ensures WireOk(Placed(w, e)) && History(Placed(w, e)) == History(w) + [e]
  {
    if w.dispatching.Some? {
      assert EventsOf(w.log) + w.inflight + (w.queued + [e]) == History(w) + [e];
    } else {
      assert EventsOf(w.log) + [e] + w.queued == History(w) + [e];
    }
  }

  lemma SameFlags(a: Notices, b: Notices, events: seq<Event>, closed: bool)
    requires NoticesOk(a, events, closed) && a.notified == b.notified && a.due == b.due && a.told == b.told
    ensures NoticesOk(b, events, closed)
  {}

  lemma Flagged(n: Notices, events: seq<Event>, closed: bool, name: Name)
    requires FlagsOk(n) && NoticesOk(n, events, closed) && name !in n.notified
    ensures NoticesOk(n.(notified := n.notified + {name}, due := n.due + {name}), events, closed)
    ensures NoticesOk(n.(calls := n.calls - multiset{name}, notified := n.notified + {name}, due := n.due + {name}),
                      events, closed)
  {}
}
