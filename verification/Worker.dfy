/** The worker's event loop: requests from the controller, completions from the callback
    thread, one operation at a time, and cancellation racing completion. */
module WorkerLoop {
  import opened Options

  datatype State = Hello | Create | Initialize | Observe | Ready | Poisoned

  datatype Kind = CreateAdapter | Invoke(initializer: bool) | ObserveAdapter | DisposeAdapter

  /** What a request asks, with what the manifest says of it. */
  datatype Operation =
    | AskHello(matches: bool)
    | AskCreate
    | AskInvoke(initializer: bool, known: bool, inputsValid: bool)
    | AskObserve
    | AskDispose
    | AskCancel(target: nat)

  /** How a callback ended: a value, with whether it validates and fits a frame, or a failure. */
  datatype Ending = Value(valid: bool, fits: bool) | Failure

  datatype Event = Request(id: nat, operation: Operation) | Complete(id: nat, ending: Ending) | Malformed | Eof

  datatype Pending = Pending(id: nat, next: State, dispose: bool, observation: bool)

  datatype Response = Response(id: nat, ok: bool)

  /** A command sent to the callback thread. */
  datatype Command = Command(id: nat, kind: Kind)

  // ---- what every run keeps ----

  function Ids(responses: seq<Response>): (ids: seq<nat>)
    ensures |ids| == |responses| && forall i :: 0 <= i < |ids| ==> ids[i] == responses[i].id
  {
    seq(|responses|, i requires 0 <= i < |responses| => responses[i].id)
  }

  predicate Answered(responses: seq<Response>, id: nat) {
    exists i :: 0 <= i < |responses| && responses[i] == Response(id, true)
  }

  /** The requests are exactly the answered ones, in order, and at most the one pending. */
  ghost predicate Correlated(requests: seq<nat>, responses: seq<Response>, pending: Option<Pending>) {
    requests == Ids(responses) + if pending.Some? then [pending.value.id] else []
  }

  predicate Increasing(requests: seq<nat>, lastId: nat) {
    && (forall i :: 0 <= i < |requests| ==> requests[i] <= lastId)
    && (forall i, j :: 0 <= i < j < |requests| ==> requests[i] < requests[j])
  }

  /** Create, an initializer, an observation, then invocations and observations by turns; a disposal only at the end. */
  predicate InLanguage(commands: seq<Command>) {
    forall i :: 0 <= i < |commands| ==>
      match commands[i].kind
      case CreateAdapter => i == 0
      case Invoke(initializer) => i % 2 == 1 && (i == 1 ==> initializer)
      case ObserveAdapter => i > 0 && i % 2 == 0
      case DisposeAdapter => i == |commands| - 1
  }

  /** Every command but a disposal was sent after the one before succeeded. */
  ghost predicate AfterSuccess(commands: seq<Command>, responses: seq<Response>) {
    forall i :: 0 < i < |commands| && !commands[i].kind.DisposeAdapter? ==> Answered(responses, commands[i - 1].id)
  }

  /** How many commands a run must have sent to be in a state. */
  predicate Counts(state: State, n: nat) {
    match state
    case Hello => n == 0
    case Create => n == 0
    case Initialize => n == 1
    case Observe => n > 0 && n % 2 == 0
    case Ready => n > 1 && n % 2 == 1
    case Poisoned => true
  }

  /** The commands fit the state, or the state the pending one leads to. */
  ghost predicate Tracks(state: State, pending: Option<Pending>, commands: seq<Command>, responses: seq<Response>) {
    match pending
    case None =>
      && (forall i :: 0 <= i < |commands| ==> !commands[i].kind.DisposeAdapter?)
      && (!state.Poisoned? ==> Counts(state, |commands|)
                               && (commands != [] ==> Answered(responses, commands[|commands| - 1].id)))
    case Some(p) =>
      && commands != [] && commands[|commands| - 1].id == p.id
      && (p.dispose <==> commands[|commands| - 1].kind.DisposeAdapter?) && (p.dispose ==> p.next.Poisoned?)
      && (!p.dispose ==> Counts(p.next, |commands|) && !p.next.Poisoned? && !state.Poisoned?)
      && (forall i :: 0 <= i < |commands| - 1 ==> !commands[i].kind.DisposeAdapter?)
  }

  ghost predicate Sound(state: State, pending: Option<Pending>, lastId: nat, requests: seq<nat>,
                        responses: seq<Response>, commands: seq<Command>) {
    && Correlated(requests, responses, pending) && Increasing(requests, lastId)
    && InLanguage(commands) && AfterSuccess(commands, responses)
    && Tracks(state, pending, commands, responses)
  }

  lemma AnsweredLater(responses: seq<Response>, more: seq<Response>, id: nat)
    requires Answered(responses, id)
    ensures Answered(responses + more, id)
  {
    var i :| 0 <= i < |responses| && responses[i] == Response(id, true);
    assert (responses + more)[i] == Response(id, true);
  }

  lemma SuccessLater(commands: seq<Command>, responses: seq<Response>, more: seq<Response>)
    requires AfterSuccess(commands, responses)
    ensures AfterSuccess(commands, responses + more)
  {
    forall i | 0 < i < |commands| && !commands[i].kind.DisposeAdapter?
      ensures Answered(responses + more, commands[i - 1].id)
    {
      AnsweredLater(responses, more, commands[i - 1].id);
    }
  }

  /** One more request, one more command. */
  lemma CommandSent(state: State, lastId: nat, requests: seq<nat>, responses: seq<Response>, commands: seq<Command>,
                    id: nat, kind: Kind, next: State, observation: bool)
    requires Sound(state, None, lastId, requests, responses, commands) && id > lastId
    requires kind.DisposeAdapter? ==> next.Poisoned?
    requires !kind.DisposeAdapter? ==> !state.Poisoned? && Counts(next, |commands| + 1) && !next.Poisoned?
    requires InLanguage(commands + [Command(id, kind)])
    ensures Sound(state, Some(Pending(id, next, kind.DisposeAdapter?, observation)), id, requests + [id], responses,
                  commands + [Command(id, kind)])
  {
    var more := commands + [Command(id, kind)];
    forall i | 0 < i < |more| && !more[i].kind.DisposeAdapter? ensures Answered(responses, more[i - 1].id) {
      if i < |commands| { assert Answered(responses, commands[i - 1].id); }
    }
  }

  /** One more request answered at once, poisoning the worker unless it was a matching hello. */
  lemma AnsweredAtOnce(state: State, lastId: nat, requests: seq<nat>, responses: seq<Response>, commands: seq<Command>,
                       id: nat, ok: bool, next: State)
    requires Sound(state, None, lastId, requests, responses, commands) && id > lastId
    requires next.Poisoned? || (state.Hello? && next.Create?)
    ensures Sound(next, None, id, requests + [id], responses + [Response(id, ok)], commands)
  {
    SuccessLater(commands, responses, [Response(id, ok)]);
  }

  /** The pending operation is answered. */
  lemma PendingAnswered(state: State, p: Pending, lastId: nat, requests: seq<nat>, responses: seq<Response>,
                        commands: seq<Command>, ok: bool, next: State)
    requires Sound(state, Some(p), lastId, requests, responses, commands) && !p.dispose
    requires next.Poisoned? || (ok && next == p.next)
    ensures Sound(next, None, lastId, requests, responses + [Response(p.id, ok)], commands)
  {
    var more := responses + [Response(p.id, ok)];
    SuccessLater(commands, responses, [Response(p.id, ok)]);
    assert ok ==> more[|responses|] == Response(p.id, true);
  }

  /** What holds even once the loop has ended: answers in request order, each once, and commands in the language. */
  ghost predicate Orderly(requests: seq<nat>, responses: seq<Response>, commands: seq<Command>) {
    Ids(responses) <= requests && InLanguage(commands) && AfterSuccess(commands, responses)
  }

  lemma SoundOrderly(state: State, pending: Option<Pending>, lastId: nat, requests: seq<nat>, responses: seq<Response>,
                     commands: seq<Command>)
    requires Sound(state, pending, lastId, requests, responses, commands)
    ensures Orderly(requests, responses, commands)
  {}

  /** Answering the pending operation keeps the run sound, whatever is recorded afterwards. */
  lemma CompleteFacts(state: State, p: Pending, lastId: nat, requests: seq<nat>, responses: seq<Response>,
                      commands: seq<Command>, ok: bool)
    requires Sound(state, Some(p), lastId, requests, responses, commands)
    ensures Orderly(requests, responses, commands) && Orderly(requests, responses + [Response(p.id, ok)], commands)
    ensures !p.dispose ==> Sound(if ok then p.next else Poisoned, None, lastId, requests,
                                 responses + [Response(p.id, ok)], commands)
    ensures state.Poisoned? ==> p.next.Poisoned?
  {
    SuccessLater(commands, responses, [Response(p.id, ok)]);
    if !p.dispose {
      PendingAnswered(state, p, lastId, requests, responses, commands, ok, if ok then p.next else Poisoned);
    }
  }

  /** A cancellation answers the pending operation and then itself. */
  lemma CancelFacts(state: State, p: Pending, lastId: nat, requests: seq<nat>, responses: seq<Response>,
                    commands: seq<Command>, id: nat)
    requires Sound(state, Some(p), lastId, requests, responses, commands) && id > lastId
    ensures Orderly(requests + [id], responses, commands)
    ensures Orderly(requests + [id], responses + [Response(p.id, false)], commands)
    ensures !p.dispose ==> Sound(Poisoned, None, id, requests + [id],
                                 responses + [Response(p.id, false), Response(id, true)], commands)
    ensures !p.dispose ==> Orderly(requests + [id], responses + [Response(p.id, false), Response(id, true)], commands)
    ensures responses + [Response(p.id, false)] + [Response(id, true)]
              == responses + [Response(p.id, false), Response(id, true)]
  {
    var once := responses + [Response(p.id, false)];
    SuccessLater(commands, responses, [Response(p.id, false)]);
    assert once + [Response(id, true)] == responses + [Response(p.id, false), Response(id, true)];
    if !p.dispose {
      PendingAnswered(state, p, lastId, requests, responses, commands, false, Poisoned);
      AnsweredAtOnce(Poisoned, lastId, requests, once, commands, id, true, Poisoned);
    }
  }

  /** What an idle worker does with a request: accept the handshake, refuse, or send a command. */
  datatype Choice = Accept | Refuse | Send(kind: Kind, next: State)

  function Plan(state: State, operation: Operation): Choice {
    match operation
    case AskHello(matches) => if state.Hello? && matches then Accept else Refuse
    case AskCreate => if state.Create? then Send(CreateAdapter, Initialize) else Refuse
    case AskInvoke(initializer, known, inputsValid) =>
      if ((state.Initialize? && initializer) || state.Ready?) && known && inputsValid
         then Send(Invoke(initializer), Observe) else Refuse
    case AskObserve => if state.Observe? then Send(ObserveAdapter, Ready) else Refuse
    case AskDispose => if !state.Hello? then Send(DisposeAdapter, Poisoned) else Refuse
    case AskCancel(_) => Refuse
  }

  lemma PlannedLanguage(state: State, lastId: nat, requests: seq<nat>, responses: seq<Response>, commands: seq<Command>,
                        id: nat, operation: Operation)
    requires Sound(state, None, lastId, requests, responses, commands) && Plan(state, operation).Send?
    ensures var c := Plan(state, operation);
            && InLanguage(commands + [Command(id, c.kind)]) && (c.kind.DisposeAdapter? ==> c.next.Poisoned?)
            && (!c.kind.DisposeAdapter? ==> !state.Poisoned? && Counts(c.next, |commands| + 1) && !c.next.Poisoned?)
  {
    var more := commands + [Command(id, Plan(state, operation).kind)];
    forall i | 0 <= i < |commands| ensures more[i] == commands[i] && !commands[i].kind.DisposeAdapter? {}
  }

  lemma IdleFacts(state: State, lastId: nat, requests: seq<nat>, responses: seq<Response>, commands: seq<Command>,
                  id: nat, operation: Operation)
    requires Sound(state, None, lastId, requests, responses, commands) && id > lastId
    ensures Orderly(requests + [id], responses, commands)
    ensures match Plan(state, operation)
            case Accept => Sound(Create, None, id, requests + [id], responses + [Response(id, true)], commands)
                           && Orderly(requests + [id], responses + [Response(id, true)], commands)
            case Refuse => Sound(Poisoned, None, id, requests + [id], responses + [Response(id, false)], commands)
                           && Orderly(requests + [id], responses + [Response(id, false)], commands)
            case Send(kind, next) =>
              && Sound(state, Some(Pending(id, next, kind.DisposeAdapter?, kind.ObserveAdapter?)), id, requests + [id],
                       responses, commands + [Command(id, kind)])
              && Orderly(requests + [id], responses, commands + [Command(id, kind)])
              && (state.Poisoned? ==> kind.DisposeAdapter?)
  {
    hide Sound;
    SoundOrderly(state, None, lastId, requests, responses, commands);
    match Plan(state, operation)
    case Accept =>
      AnsweredAtOnce(state, lastId, requests, responses, commands, id, true, Create);
      SoundOrderly(Create, None, id, requests + [id], responses + [Response(id, true)], commands);
    case Refuse =>
      AnsweredAtOnce(state, lastId, requests, responses, commands, id, false, Poisoned);
      SoundOrderly(Poisoned, None, id, requests + [id], responses + [Response(id, false)], commands);
    case Send(kind, next) =>
      PlannedLanguage(state, lastId, requests, responses, commands, id, operation);
      CommandSent(state, lastId, requests, responses, commands, id, kind, next, kind.ObserveAdapter?);
      SoundOrderly(state, Some(Pending(id, next, kind.DisposeAdapter?, kind.ObserveAdapter?)), id, requests + [id],
                   responses, commands + [Command(id, kind)]);
  }

  // ---- what a worker does not refuse ----

  /** The command a request asks for, if it asks for one and its inputs are in order. */
  function Asked(operation: Operation): Option<Kind> {
    match operation
    case AskCreate => Some(CreateAdapter)
    case AskInvoke(initializer, known, inputsValid) => if known && inputsValid then Some(Invoke(initializer)) else None
    case AskObserve => Some(ObserveAdapter)
    case AskDispose => Some(DisposeAdapter)
    case _ => None
  }

  /** A worker past its handshake takes every command that keeps the language, and a disposal always. */
  ghost predicate Admits(state: State, commands: seq<Command>, id: nat, operation: Operation) {
    && !state.Hello? && Asked(operation).Some?
    && (Asked(operation).value.DisposeAdapter?
        || (!state.Poisoned? && InLanguage(commands + [Command(id, Asked(operation).value)])))
  }

  lemma PlanAdmits(state: State, lastId: nat, requests: seq<nat>, responses: seq<Response>, commands: seq<Command>,
                   id: nat, operation: Operation)
    requires Sound(state, None, lastId, requests, responses, commands)
    ensures Plan(state, operation).Send? <==> Admits(state, commands, id, operation)
    ensures Plan(state, operation).Send? ==> Plan(state, operation).kind == Asked(operation).value
    ensures Plan(state, operation).Accept? <==> state.Hello? && operation == AskHello(true)
  {
    hide AfterSuccess, Correlated, Increasing;
    if Plan(state, operation).Send? {
      PlannedLanguage(state, lastId, requests, responses, commands, id, operation);
    } else if Asked(operation).Some? {
      var more := commands + [Command(id, Asked(operation).value)];
      assert more[|commands|].kind == Asked(operation).value;
    }
  }

  /** The request for a command. */
  function Asking(kind: Kind): Operation {
    match kind
    case CreateAdapter => AskCreate
    case Invoke(initializer) => AskInvoke(initializer, true, true)
    case ObserveAdapter => AskObserve
    case DisposeAdapter => AskDispose
  }

  /** A word of the language, under increasing identifiers. */
  predicate Word(hello: nat, wanted: seq<Command>) {
    && 0 < hello && InLanguage(wanted)
    && (forall k :: 0 <= k < |wanted| ==> hello < wanted[k].id)
    && (forall j, k :: 0 <= j < k < |wanted| ==> wanted[j].id < wanted[k].id)
  }

  /** What has been answered once `n` commands have been completed. */
  function Answers(hello: nat, wanted: seq<Command>, n: nat): (responses: seq<Response>)
    requires n <= |wanted|
    ensures |responses| == n + 1
  {
    [Response(hello, true)] + seq(n, k requires 0 <= k < n => Response(wanted[k].id, true))
  }

  lemma WordPrefix(wanted: seq<Command>, k: nat)
    requires k < |wanted| && InLanguage(wanted)
    ensures InLanguage(wanted[..k] + [wanted[k]]) && wanted[..k] + [wanted[k]] == wanted[..k + 1]
    ensures wanted[k].kind.DisposeAdapter? ==> k == |wanted| - 1
  {
    forall i | 0 <= i < k + 1 ensures wanted[..k + 1][i] == wanted[i] {}
  }

  class Worker {
    var state: State
    var pending: Option<Pending>
    var lastId: nat
    var ended: bool
    /** How many more answers the pipe will take. */
    var room: nat
    /** Request identifiers accepted, answers written and commands sent, in order. */
    var requests: seq<nat>
    var responses: seq<Response>
    var commands: seq<Command>

    ghost predicate Valid()
      reads this
    {
      && Orderly(requests, responses, commands)
      && (!ended ==> Sound(state, pending, lastId, requests, responses, commands))
    }

    constructor (room: nat)
      ensures Valid() && !ended && state.Hello? && pending.None? && lastId == 0 && this.room == room
      ensures requests == [] && responses == [] && commands == []
    {
      state, pending, lastId, ended, this.room := Hello, None, 0, false, room;
      requests, responses, commands := [], [], [];
    }

    /** Write one answer; a broken pipe ends the loop. */
    method Respond(id: nat, ok: bool)
      requires !ended
      modifies `responses, `ended, `room
      ensures ended <==> old(room) == 0
      ensures ended ==> responses == old(responses) && room == old(room)
      ensures !ended ==> responses == old(responses) + [Response(id, ok)] && room == old(room) - 1
    {
      if room == 0 {
        ended := true;
      } else {
        responses, room := responses + [Response(id, ok)], room - 1;
      }
    }

    /** A completion of the pending operation is answered, as a success if its value is in order; any other is
        ignored. */
    twostate predicate Completed(id: nat, ending: Ending)
      reads this
    {
      && (old(pending.None? || pending.value.id != id) ==>
            !ended && responses == old(responses) && state == old(state) && pending == old(pending)
            && room == old(room))
      && (old(pending.Some? && pending.value.id == id) ==>
            var p := old(pending).value;
            var ok := ending.Value? && (p.observation ==> ending.valid) && ending.fits;
            && pending.None? && state == (if ok then p.next else Poisoned) && (ended <==> p.dispose || old(room) == 0)
            && (if old(room) == 0 then responses == old(responses) && room == 0
                else responses == old(responses) + [Response(id, ok)] && room == old(room) - 1))
    }

    /** While an operation is pending, only its cancellation goes on, and not of a disposal. */
    twostate predicate Interrupted(id: nat, operation: Operation)
      requires old(pending).Some?
      reads this
    {
      && (!ended ==> operation == AskCancel(old(pending).value.id) && !old(pending).value.dispose)
      && (ended <==> operation != AskCancel(old(pending).value.id) || old(pending).value.dispose || old(room) < 2)
      && old(responses) <= responses && (pending.None? || pending == old(pending))
      && (!ended ==> responses == old(responses) + [Response(old(pending).value.id, false), Response(id, true)]
                     && pending.None?)
    }

    /** With nothing pending, an admissible command is sent and awaited; anything else is answered at once. */
    twostate predicate Taken(id: nat, operation: Operation)
      reads this
    {
      if old(Admits(state, commands, id, operation)) then
        && !ended && commands == old(commands) + [Command(id, Asked(operation).value)]
        && responses == old(responses) && room == old(room) && state == old(state)
        && pending.Some? && pending.value.id == id
        && pending.value.dispose == operation.AskDispose? && pending.value.observation == operation.AskObserve?
      else
        && commands == old(commands) && pending.None? && (ended <==> old(room) == 0)
        && (if old(state).Hello? && operation == AskHello(true) then state.Create? else state.Poisoned?)
        && (if ended then responses == old(responses)
            else responses == old(responses) + [Response(id, old(state).Hello? && operation == AskHello(true))]
                 && room == old(room) - 1)
    }

    lemma IdleAdmits(id: nat, operation: Operation)
      requires Valid() && !ended && pending.None?
      ensures Plan(state, operation).Send? <==> Admits(state, commands, id, operation)
      ensures Plan(state, operation).Send? ==> Plan(state, operation).kind == Asked(operation).value
      ensures Plan(state, operation).Accept? <==> state.Hello? && operation == AskHello(true)
    {
      PlanAdmits(state, lastId, requests, responses, commands, id, operation);
    }

    /** A callback finished. A completion that is not the pending one is too late and ignored. */
    method OnComplete(id: nat, ending: Ending)
      requires Valid() && !ended
      modifies this
      ensures Valid() && requests == old(requests) && commands == old(commands) && lastId == old(lastId)
      ensures Completed(id, ending)
      ensures old(state.Poisoned?) ==> state.Poisoned?
    {
      hide Sound, Orderly, InLanguage, AfterSuccess;
      if pending.None? || pending.value.id != id { return; }
      var p := pending.value;
      var ok := ending.Value? && (p.observation ==> ending.valid) && ending.fits;
      CompleteFacts(state, p, lastId, requests, responses, commands, ok);
      pending := None;
      state := if ok then p.next else Poisoned;
      Respond(p.id, ok);
      if p.dispose { ended := true; }
    }

    /** A request while an operation is pending: only its cancellation is allowed. */
    method OnRequestPending(id: nat, operation: Operation)
      requires Valid() && !ended && pending.Some? && id > lastId
      modifies this
      ensures Valid() && commands == old(commands) && requests == old(requests) + [id] && lastId == id
      ensures old(state.Poisoned?) || !ended ==> state.Poisoned?
      ensures Interrupted(id, operation)
    {
      hide Sound, Orderly, InLanguage, AfterSuccess;
      var p := pending.value;
      CancelFacts(state, p, lastId, requests, responses, commands, id);
      lastId := id;
      requests := requests + [id];
      if !operation.AskCancel? || operation.target != p.id || p.dispose {
        ended := true;
        return;
      }
      pending := None;
      state := Poisoned;
      Respond(p.id, false);
      if ended { return; }
      Respond(id, true);
    }

    /** A request while nothing is pending: answered at once, or turned into a command. */
    method OnRequestIdle(id: nat, operation: Operation)
      requires Valid() && !ended && pending.None? && id > lastId
      modifies this
      ensures Valid() && (old(state.Poisoned?) ==> state.Poisoned?) && requests == old(requests) + [id] && lastId == id
      ensures Taken(id, operation)
      ensures match Plan(old(state), operation)
              case Send(kind, next) =>
                && !ended && state == old(state) && responses == old(responses) && room == old(room)
                && commands == old(commands) + [Command(id, kind)]
                && pending == Some(Pending(id, next, kind.DisposeAdapter?, kind.ObserveAdapter?))
              case Accept =>
                && state.Create? && commands == old(commands) && pending.None? && (ended <==> old(room) == 0)
                && (if ended then responses == old(responses)
                    else responses == old(responses) + [Response(id, true)] && room == old(room) - 1)
              case Refuse =>
                && state.Poisoned? && commands == old(commands) && pending.None? && (ended <==> old(room) == 0)
                && (if ended then responses == old(responses)
                    else responses == old(responses) + [Response(id, false)] && room == old(room) - 1)
    {
      hide Sound, Orderly, InLanguage, AfterSuccess, Admits;
      var chosen := Plan(state, operation);
      IdleFacts(state, lastId, requests, responses, commands, id, operation);
      IdleAdmits(id, operation);
      lastId := id;
      requests := requests + [id];
      match chosen
      case Accept =>
        state := Create;
        Respond(id, true);
      case Refuse =>
        state := Poisoned;
        Respond(id, false);
      case Send(kind, next) =>
        pending := Some(Pending(id, next, kind.DisposeAdapter?, kind.ObserveAdapter?));
        commands := commands + [Command(id, kind)];
    }

    /** One event of the loop. */
    method Take(event: Event)
      requires Valid() && !ended
      modifies this
      ensures Valid() && (old(state.Poisoned?) ==> state.Poisoned?)
      ensures match event
              case Complete(id, ending) =>
                Completed(id, ending) && requests == old(requests) && commands == old(commands) && lastId == old(lastId)
              case Request(id, operation) =>
                if id <= old(lastId) then ended && Idles()
                else requests == old(requests) + [id] && lastId == id
                     && if old(pending.Some?) then Interrupted(id, operation) && commands == old(commands)
                        else Taken(id, operation)
              case _ => ended && Idles()
    {
      hide Sound, Orderly, InLanguage, AfterSuccess, Plan, Admits;
      match event
      case Complete(id, ending) => OnComplete(id, ending);
      case Request(id, operation) =>
        if id <= lastId {
          ended := true;
        } else if pending.Some? {
          OnRequestPending(id, operation);
        } else {
          OnRequestIdle(id, operation);
        }
      case _ => ended := true;
    }

    twostate predicate Idles()
      reads this
    {
      requests == old(requests) && responses == old(responses) && commands == old(commands) && state == old(state)
    }

    /** `run_worker`: events in any order, until one of them ends the loop. */
    method Run(events: seq<Event>)
      requires Valid() && !ended
      modifies this
      ensures Orderly(requests, responses, commands)
      ensures !ended ==> Sound(state, pending, lastId, requests, responses, commands)
      ensures !ended ==> forall i, j :: 0 <= i < j < |requests| ==> requests[i] < requests[j]
      ensures old(state.Poisoned?) ==> state.Poisoned?
    {
      hide Sound, Orderly, InLanguage, AfterSuccess, Admits, Taken, Completed, Interrupted;
      for i := 0 to |events|
        invariant Valid() && !ended && (old(state.Poisoned?) ==> state.Poisoned?)
      {
        Take(events[i]);
        if ended { return; }
      }
      OneAfterAnother();
    }

    lemma OneAfterAnother()
      requires Valid() && !ended
      ensures forall i, j :: 0 <= i < j < |requests| ==> requests[i] < requests[j]
    {}

    /** With nothing pending after the handshake, a disposal is sent, once, and its completion ends the loop. */
    method Dispose(id: nat, ending: Ending)
      requires Valid() && !ended && pending.None? && !state.Hello? && id > lastId
      modifies this
      ensures Valid() && ended && commands == old(commands) + [Command(id, DisposeAdapter)]
      ensures responses == old(responses) + if old(room) == 0 then [] else [Response(id, ending.Value? && ending.fits)]
    {
      hide Sound, Orderly, InLanguage, AfterSuccess;
      Take(Request(id, AskDispose));
      Take(Complete(id, ending));
    }

    /** A word of the command language is served to its end: asked for one command after the other, each completed
        with a valid value, a new worker sends exactly these and answers every request with success; and the loop
        goes on unless the word ends with a disposal. */
    method Serve(hello: nat, wanted: seq<Command>)
      requires Valid() && !ended && state.Hello? && pending.None? && lastId == 0 && commands == [] && responses == []
      requires Word(hello, wanted) && room > |wanted|
      modifies this
      ensures Valid() && commands == wanted && responses == Answers(hello, wanted, |wanted|) && pending.None?
      ensures ended <==> wanted != [] && wanted[|wanted| - 1].kind.DisposeAdapter?
    {
      hide Sound, Orderly, InLanguage, AfterSuccess;
      Take(Request(hello, AskHello(true)));
      for k := 0 to |wanted|
        invariant Valid() && pending.None? && commands == wanted[..k] && room > |wanted| - k - 1
        invariant responses == Answers(hello, wanted, k)
        invariant ended <==> k > 0 && wanted[k - 1].kind.DisposeAdapter?
        invariant !ended ==> !state.Hello? && !state.Poisoned?
        invariant lastId == if k == 0 then hello else wanted[k - 1].id
      {
        WordPrefix(wanted, k);
        if k > 0 { WordPrefix(wanted, k - 1); }
        Take(Request(wanted[k].id, Asking(wanted[k].kind)));
        NextOpen();
        Take(Complete(wanted[k].id, Value(true, true)));
      }
      assert wanted[..|wanted|] == wanted;
    }

    /** What a pending command leads to. */
    lemma NextOpen()
      requires Valid() && !ended && pending.Some?
      ensures !pending.value.dispose ==> !pending.value.next.Poisoned? && !pending.value.next.Hello?
    {}
  }
}
