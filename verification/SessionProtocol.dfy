/**
 Remote ASR sessions at the gateway as a state machine: starts and the callers that
 wait for them, start timeouts, agent messages and agent removals interleave, and
 every lock scope of the session table and every send on a channel is one atomic
 step. An operation that spans several waits in `todo` or, once it has taken a
 route out of the table, in `held`, so any other step can come between.
 */
module SessionProtocol {
  import opened Common
  import opened SessionRoutes

  /** The second half of an operation whose first half has been done. */
  datatype Op =
    | FailStart(session: SessionId)
    | LookUp(session: SessionId, event: AsrEvent)
    | Deliver(session: SessionId, event: AsrEvent)

  /** A route taken out of the table whose session has not been told everything. */
  datatype Held = Held(route: Route, cause: Cause, errorSent: bool)

  /** Where `start_stream` stands: the start command is not sent yet, its answer awaited, or given up. */
  datatype Caller = Starting | Waiting | GivingUp | Returned(ok: bool)

  /** `answers[s]` and `events[s]` are everything session `s` was sent, in order. */
  datatype State = State(
    sessions: map<SessionId, Route>,
    held: map<SessionId, Held>,
    todo: seq<Op>,
    answers: seq<seq<Answer>>,
    events: seq<seq<AsrEvent>>,
    callers: seq<Caller>)

  const INITIAL := State(map[], map[], [], [], [], [])

  datatype Event =
    | Register(agent: AgentId)
    | StartSent(session: SessionId)
    | StartNotSent(session: SessionId)
    | TimesOut(session: SessionId)
    | GiveUp(session: SessionId)
    | Receive(session: SessionId)
    | StartedMessage(session: SessionId)
    | TextMessage(session: SessionId, isFinal: bool)
    | ErrorMessage(session: SessionId)
    | EndedMessage(session: SessionId)
    | RemoveAgent(agent: AgentId)
    | Tell(session: SessionId)
    | Perform(i: nat)

  function TakeOut(s: State, id: SessionId, cause: Cause): State {
    if id in s.sessions then
      s.(sessions := s.sessions - {id}, held := s.held[id := Held(s.sessions[id], cause, false)])
    else s
  }

  function Append<T>(logs: seq<seq<T>>, i: nat, more: seq<T>): seq<seq<T>> {
    if i < |logs| then logs[i := logs[i] + more] else logs
  }

  function SetCaller(s: State, id: SessionId, caller: Caller): State {
    if id < |s.callers| then s.(callers := s.callers[id := caller]) else s
  }

  predicate Is(s: State, id: SessionId, caller: Caller) { id < |s.callers| && s.callers[id] == caller }

  /** `mark_session_started`: whoever takes `started_tx` out of the route answers the start. */
  function Acknowledge(s: State, id: SessionId): State {
    if id in s.sessions && s.sessions[id].pending then
      s.(sessions := s.sessions[id := s.sessions[id].(pending := false)], answers := Append(s.answers, id, [Started]))
    else s
  }

  /** The next send of whoever took the route out. */
  function Told(s: State, id: SessionId): State {
    if id !in s.held then s
    else
      var h := s.held[id];
      if h.route.pending then s.(held := s.held - {id}, answers := Append(s.answers, id, [Refused]))
      else if h.cause.AgentEnded? || h.errorSent then
        s.(held := s.held - {id}, events := Append(s.events, id, [Ended(h.cause)]))
      else s.(held := s.held[id := h.(errorSent := true)], events := Append(s.events, id, [RegistryError(h.cause)]))
  }

  function Performed(s: State, i: nat): State
    requires i < |s.todo|
  {
    var rest := s.(todo := s.todo[..i] + s.todo[i + 1..]);
    match s.todo[i]
    case FailStart(id) => TakeOut(rest, id, StartFailed)
    case LookUp(id, e) => if id in s.sessions then rest.(todo := rest.todo + [Deliver(id, e)]) else rest
    case Deliver(id, e) => rest.(events := Append(s.events, id, [e]))
  }

  function Next(s: State, e: Event): State {
    match e
    case Register(a) =>
      State(s.sessions[|s.answers| := Route(a, true)], s.held, s.todo, s.answers + [[]], s.events + [[]],
            s.callers + [Starting])
    case StartSent(id) => if Is(s, id, Starting) then SetCaller(s, id, Waiting) else s
    case StartNotSent(id) => if Is(s, id, Starting) then SetCaller(s, id, GivingUp) else s
    case TimesOut(id) => if Is(s, id, Waiting) then SetCaller(s, id, GivingUp) else s
    case GiveUp(id) =>
      if Is(s, id, GivingUp) then SetCaller(TakeOut(s, id, StartFailed), id, Returned(false)) else s
    case Receive(id) =>
      if Is(s, id, Waiting) && id < |s.answers| && s.answers[id] != [] then
        SetCaller(s, id, Returned(s.answers[id][0].Started?))
      else s
    case StartedMessage(id) => Acknowledge(s, id)
    case TextMessage(id, isFinal) => s.(todo := s.todo + [LookUp(id, if isFinal then Final else Partial)])
    case ErrorMessage(id) =>
      if id in s.sessions && s.sessions[id].pending then s.(todo := s.todo + [FailStart(id)])
      else s.(todo := s.todo + [LookUp(id, AgentError)])
    case EndedMessage(id) => TakeOut(s, id, AgentEnded)
    case RemoveAgent(a) =>
      s.(sessions := SessionsWithout(s.sessions, a),
         held := s.held + map id | id in SessionsOf(s.sessions, a) :: Held(s.sessions[id], AgentGone, false))
    case Tell(id) => Told(s, id)
    case Perform(i) => if i < |s.todo| then Performed(s, i) else s
  }

  function Run(events: seq<Event>): State {
    if events == [] then INITIAL else Next(Run(events[..|events| - 1]), events[|events| - 1])
  }

  lemma RunSnoc(events: seq<Event>, e: Event)
    ensures Run(events + [e]) == Next(Run(events), e)
  {
    hide Next;
    assert (events + [e])[..|events|] == events;
  }

  // ---- What the registry itself tells a session ----

  predicate IsRegistrys(e: AsrEvent) { e.RegistryError? || e.Ended? }

  /** The registry's own events in a log, in order. */
  function Outline(log: seq<AsrEvent>): seq<AsrEvent> {
    if log == [] then []
    else Outline(log[..|log| - 1]) + if IsRegistrys(log[|log| - 1]) then [log[|log| - 1]] else []
  }

  lemma OutlineSnoc(log: seq<AsrEvent>, e: AsrEvent)
    ensures Outline(log + [e]) == Outline(log) + if IsRegistrys(e) then [e] else []
  {
    assert (log + [e])[..|log|] == log;
  }

  /** How many times a session was told that it ended. */
  function EndedCount(log: seq<AsrEvent>): nat {
    if log == [] then 0
    else EndedCount(log[..|log| - 1]) + if log[|log| - 1].Ended? then 1 else 0
  }

  lemma {:induction false} EndedIsOutlined(log: seq<AsrEvent>)
    ensures EndedCount(log) == EndedCount(Outline(log))
  {
    if log != [] {
      EndedIsOutlined(log[..|log| - 1]);
      var (before, e) := (Outline(log[..|log| - 1]), log[|log| - 1]);
      if IsRegistrys(e) {
        assert (before + [e])[..|before|] == before;
      } else {
        assert before + [] == before;
      }
    }
  }

  lemma FarewellEndsOnce(route: Route, cause: Cause)
    ensures EndedCount(FarewellEvents(route, cause)) == if route.pending then 0 else 1
  {
    var none: seq<AsrEvent> := [];
    assert EndedCount(none) == 0;
    assert [RegistryError(cause)][..0] == none && [Ended(cause)][..0] == none;
    assert [RegistryError(cause), Ended(cause)][..1] == [RegistryError(cause)];
    assert EndedCount([RegistryError(cause)]) == 0;
  }

  // ---- The invariant ----

  /** What a session has been told while its route is in the table. */
  ghost predicate LiveOk(route: Route, answers: seq<Answer>, outline: seq<AsrEvent>) {
    answers == (if route.pending then [] else [Started]) && outline == []
  }

  ghost predicate HeldOk(h: Held, answers: seq<Answer>, outline: seq<AsrEvent>) {
    && answers == (if h.route.pending then [] else [Started])
    && outline == (if h.errorSent then [RegistryError(h.cause)] else [])
    && (h.errorSent ==> !h.route.pending && !h.cause.AgentEnded?)
  }

  /** What a session taken out of the table with this route has been told in the end. */
  ghost predicate ToldAll(route: Route, cause: Cause, answers: seq<Answer>, outline: seq<AsrEvent>) {
    answers == [if route.pending then Refused else Started] && outline == FarewellEvents(route, cause)
  }

  /** A session that is over. */
  ghost predicate Settled(answers: seq<Answer>, outline: seq<AsrEvent>) {
    exists route, cause :: ToldAll(route, cause, answers, outline)
  }

  ghost predicate SessionOk(s: State, id: SessionId)
    requires id < |s.answers| && |s.answers| == |s.events| == |s.callers|
  {
    var (answers, outline) := (s.answers[id], Outline(s.events[id]));
    && !(id in s.sessions && id in s.held)
    && (id in s.sessions ==> LiveOk(s.sessions[id], answers, outline))
    && (id in s.held ==> HeldOk(s.held[id], answers, outline))
    && (id !in s.sessions && id !in s.held ==> Settled(answers, outline))
    && (s.callers[id] == Returned(true) ==> answers == [Started])
    && (s.callers[id] == Returned(false) ==> id !in s.sessions)
  }

  ghost predicate Inv(s: State) {
    && |s.answers| == |s.events| == |s.callers|
    && (forall id :: id in s.sessions || id in s.held ==> id < |s.answers|)
    && (forall i :: 0 <= i < |s.todo| && s.todo[i].Deliver? ==> !IsRegistrys(s.todo[i].event))
    && (forall i :: 0 <= i < |s.todo| && s.todo[i].LookUp? ==> !IsRegistrys(s.todo[i].event))
    && forall id :: 0 <= id < |s.answers| ==> SessionOk(s, id)
  }

  /** The next send concerns one session only. */
  lemma TellFrame(s: State, id: SessionId)
    requires id in s.held && id < |s.answers| == |s.events|
    ensures var s' := Told(s, id);
            && |s'.answers| == |s.answers| && |s'.events| == |s.events|
            && s'.sessions == s.sessions && s'.callers == s.callers && s'.todo == s.todo
            && (id in s'.held ==> s'.held[id] == s.held[id].(errorSent := true))
            && (forall u :: u != id ==> (u in s'.held <==> u in s.held) && (u in s.held ==> s'.held[u] == s.held[u]))
            && (forall u :: 0 <= u < |s.answers| && u != id ==>
                s'.answers[u] == s.answers[u] && s'.events[u] == s.events[u])
  {}

  /** What the next send does to the session it is for. */
  lemma TellHeld(s: State, id: SessionId)
    requires id in s.held && id < |s.answers| == |s.events| && HeldOk(s.held[id], s.answers[id], Outline(s.events[id]))
    ensures var s' := Told(s, id);
            var h := s.held[id];
            && (id in s'.held ==> HeldOk(s'.held[id], s'.answers[id], Outline(s'.events[id])))
            && (id !in s'.held ==> ToldAll(h.route, h.cause, s'.answers[id], Outline(s'.events[id])))
  {
    hide Outline;
    var h := s.held[id];
    if h.route.pending {
      assert [] + [Refused] == [Refused];
    } else if h.errorSent {
      OutlineSnoc(s.events[id], Ended(h.cause));
      assert [RegistryError(h.cause)] + [Ended(h.cause)] == [RegistryError(h.cause), Ended(h.cause)];
    } else if h.cause.AgentEnded? {
      OutlineSnoc(s.events[id], Ended(h.cause));
      assert [] + [Ended(h.cause)] == [Ended(h.cause)];
    } else {
      OutlineSnoc(s.events[id], RegistryError(h.cause));
      assert [] + [RegistryError(h.cause)] == [RegistryError(h.cause)];
    }
  }

  /** What the invariant says of one session survives the next send of another one. */
  lemma TellSpares(s: State, s': State, u: SessionId)
    requires u < |s.answers| && |s.answers| == |s.events| == |s.callers| && SessionOk(s, u)
    requires |s'.answers| == |s.answers| && |s'.events| == |s.events| && |s'.callers| == |s.callers|
    requires (u in s'.sessions <==> u in s.sessions) && (u in s.sessions ==> s'.sessions[u] == s.sessions[u])
    requires (u in s'.held <==> u in s.held) && (u in s.held ==> s'.held[u] == s.held[u])
    requires s'.answers[u] == s.answers[u] && s'.events[u] == s.events[u] && s'.callers[u] == s.callers[u]
    ensures SessionOk(s', u)
  {
    hide Outline, Settled, LiveOk, HeldOk;
  }

  lemma TellKeepsOwn(s: State, id: SessionId)
    requires Inv(s) && id in s.held
    requires var s' := Told(s, id); |s'.answers| == |s'.events| == |s'.callers| == |s.answers|
    ensures SessionOk(Told(s, id), id)
  {
    assert SessionOk(s, id);
    TellHeld(s, id);
    TellFrame(s, id);
    hide Told, Outline, ToldAll, LiveOk, HeldOk;
  }

  lemma TellKeeps(s: State, id: SessionId)
    requires Inv(s)
    ensures Inv(Told(s, id))
  {
    if id in s.held {
      TellFrame(s, id);
      var s' := Told(s, id);
      TellKeepsOwn(s, id);
      hide Told, SessionOk;
      forall u | 0 <= u < |s'.answers| ensures SessionOk(s', u) {
        if u != id {
          TellSpares(s, s', u);
        }
      }
    }
  }

  lemma TakeOutKeeps(s: State, id: SessionId, cause: Cause)
    requires Inv(s)
    ensures Inv(TakeOut(s, id, cause)) && id !in TakeOut(s, id, cause).sessions
  {
    hide Outline, Settled;
    var s' := TakeOut(s, id, cause);
    forall u | 0 <= u < |s'.answers| ensures SessionOk(s', u) {
      assert SessionOk(s, u);
    }
  }

  lemma CallerKeeps(s: State, id: SessionId, caller: Caller)
    requires Inv(s)
    requires id < |s.answers| && caller == Returned(true) ==> s.answers[id] == [Started]
    requires caller == Returned(false) ==> id !in s.sessions
    ensures Inv(SetCaller(s, id, caller))
  {
    hide Outline, Settled, LiveOk, HeldOk;
    var s' := SetCaller(s, id, caller);
    forall u | 0 <= u < |s'.answers| ensures SessionOk(s', u) {
      assert SessionOk(s, u);
    }
  }

  lemma ReceiveKeeps(s: State, id: SessionId)
    requires Inv(s)
    ensures Inv(Next(s, Receive(id)))
  {
    hide Outline;
    if Is(s, id, Waiting) && id < |s.answers| && s.answers[id] != [] {
      assert SessionOk(s, id);
      CallerKeeps(s, id, Returned(s.answers[id][0].Started?));
    }
  }

  lemma PerformKeeps(s: State, i: nat)
    requires Inv(s) && i < |s.todo|
    ensures Inv(Performed(s, i))
  {
    var rest := s.(todo := s.todo[..i] + s.todo[i + 1..]);
    RestKeeps(s, i);
    match s.todo[i]
    case FailStart(id) => TakeOutKeeps(rest, id, StartFailed);
    case LookUp(id, e) => LookUpKeeps(rest, id, e);
    case Deliver(id, e) => DeliverKeeps(rest, id, e);
  }

  lemma RestKeeps(s: State, i: nat)
    requires Inv(s) && i < |s.todo|
    ensures Inv(s.(todo := s.todo[..i] + s.todo[i + 1..]))
  {
    hide Outline, Settled, LiveOk, HeldOk;
    var rest := s.(todo := s.todo[..i] + s.todo[i + 1..]);
    assert forall j :: 0 <= j < |rest.todo| ==> rest.todo[j] == s.todo[if j < i then j else j + 1];
    forall u | 0 <= u < |rest.answers| ensures SessionOk(rest, u) {
      assert SessionOk(s, u);
    }
  }

  lemma LookUpKeeps(s: State, id: SessionId, e: AsrEvent)
    requires Inv(s) && !IsRegistrys(e)
    ensures Inv(s.(todo := s.todo + [Deliver(id, e)]))
  {
    hide Outline, Settled, LiveOk, HeldOk;
    var s' := s.(todo := s.todo + [Deliver(id, e)]);
    forall u | 0 <= u < |s'.answers| ensures SessionOk(s', u) {
      assert SessionOk(s, u);
    }
  }

  lemma DeliverKeeps(s: State, id: SessionId, e: AsrEvent)
    requires Inv(s) && !IsRegistrys(e)
    ensures Inv(s.(events := Append(s.events, id, [e])))
  {
    var s' := s.(events := Append(s.events, id, [e]));
    if id < |s.events| {
      OutlineSnoc(s.events[id], e);
      assert Outline(s.events[id]) + [] == Outline(s.events[id]);
    }
    hide Outline, Settled, LiveOk, HeldOk;
    forall u | 0 <= u < |s'.answers| ensures SessionOk(s', u) {
      assert SessionOk(s, u);
    }
  }

  lemma EventKeeps(s: State, e: Event)
    requires Inv(s)
    ensures Inv(Next(s, e))
  {
    hide Inv, Told, Performed;
    match e
    case StartSent(id) => CallerKeeps(s, id, Waiting);
    case StartNotSent(id) => CallerKeeps(s, id, GivingUp);
    case TimesOut(id) => CallerKeeps(s, id, GivingUp);
    case GiveUp(id) =>
      TakeOutKeeps(s, id, StartFailed);
      CallerKeeps(TakeOut(s, id, StartFailed), id, Returned(false));
    case Receive(id) => ReceiveKeeps(s, id);
    case EndedMessage(id) => TakeOutKeeps(s, id, AgentEnded);
    case Tell(id) => TellKeeps(s, id);
    case Perform(i) => if i < |s.todo| { PerformKeeps(s, i); }
    case Register(a) => RegisterKeeps(s, a);
    case RemoveAgent(a) => RemoveAgentKeeps(s, a);
    case _ => SimpleEventKeeps(s, e);
  }

  lemma RegisterKeeps(s: State, a: AgentId)
    requires Inv(s)
    ensures Inv(Next(s, Register(a)))
  {
    hide Settled;
    var s' := Next(s, Register(a));
    forall u | 0 <= u < |s'.answers| ensures SessionOk(s', u) {
      if u < |s.answers| {
        assert SessionOk(s, u);
      }
    }
  }

  lemma RemoveAgentKeeps(s: State, a: AgentId)
    requires Inv(s)
    ensures Inv(Next(s, RemoveAgent(a)))
  {
    hide Settled, Outline;
    var s' := Next(s, RemoveAgent(a));
    forall u | 0 <= u < |s'.answers| ensures SessionOk(s', u) {
      assert SessionOk(s, u);
    }
  }

  lemma SimpleEventKeeps(s: State, e: Event)
    requires Inv(s)
    requires e.StartedMessage? || e.TextMessage? || e.ErrorMessage?
    ensures Inv(Next(s, e))
  {
    hide Settled, Outline;
    var s' := Next(s, e);
    forall u | 0 <= u < |s'.answers| ensures SessionOk(s', u) {
      assert SessionOk(s, u);
    }
  }

  lemma {:induction false} InvariantOfRuns(events: seq<Event>)
    ensures Inv(Run(events))
  {
    if events != [] {
      hide Inv, Next;
      InvariantOfRuns(events[..|events| - 1]);
      EventKeeps(Run(events[..|events| - 1]), events[|events| - 1]);
    }
  }

  lemma InvariantAt(events: seq<Event>, id: SessionId)
    requires id < |Run(events).answers|
    ensures var s := Run(events); |s.answers| == |s.events| == |s.callers| && SessionOk(s, id)
  {
    hide Run, SessionOk;
    InvariantOfRuns(events);
  }

  // ---- What every run guarantees ----

  /**
   In every interleaving a session's start is answered at most once, the session is
   told Ended at most once, and never when its start was refused.
   */
  lemma OneAnswerOneEnd(events: seq<Event>, id: SessionId)
    requires id < |Run(events).answers|
    ensures var s := Run(events);
            && |s.events| == |s.answers|
            && |s.answers[id]| <= 1 && EndedCount(s.events[id]) <= 1
            && (s.answers[id] == [Refused] ==> EndedCount(s.events[id]) == 0)
            && (EndedCount(s.events[id]) == 1 ==> s.answers[id] == [Started])
  {
    InvariantAt(events, id);
    var s := Run(events);
    EndedIsOutlined(s.events[id]);
    hide Run, Outline;
    if id in s.held {
      assert [RegistryError(s.held[id].cause)][..0] == [];
    } else if id !in s.sessions {
      var route, cause :| ToldAll(route, cause, s.answers[id], Outline(s.events[id]));
      FarewellEndsOnce(route, cause);
    }
  }

  /**
   A registered session is in the table, or about to be told, or it is over: its
   start was refused and the registry sent nothing else, or it was answered and
   told its last events, an error first unless its agent ended it.
   */
  lemma NoSessionStranded(events: seq<Event>, id: SessionId)
    requires id < |Run(events).answers|
    ensures var s := Run(events);
            && |s.events| == |s.answers|
            && !(id in s.sessions && id in s.held)
            && (id !in s.sessions && id !in s.held <==> Settled(s.answers[id], Outline(s.events[id])))
  {
    InvariantAt(events, id);
    hide Run, Outline;
    var s := Run(events);
    if Settled(s.answers[id], Outline(s.events[id])) {
      var route, cause :| ToldAll(route, cause, s.answers[id], Outline(s.events[id]));
    }
  }

  // ---- A route that has been taken out ----

  /** The session was taken out with this route for this cause, and is being told or has been told accordingly. */
  ghost predicate Fate(s: State, id: SessionId, route: Route, cause: Cause) {
    && id < |s.answers| == |s.events|
    && id !in s.sessions
    && (id in s.held ==> s.held[id].route == route && s.held[id].cause == cause)
    && (id !in s.held ==> ToldAll(route, cause, s.answers[id], Outline(s.events[id])))
  }

  /** Nothing but its own next send and deliveries reaches a session whose route is out of the table. */
  lemma OutOfReach(s: State, e: Event, id: SessionId)
    requires Inv(s) && id < |s.answers| && id !in s.sessions && e != Tell(id)
    requires e.Perform? && e.i < |s.todo| ==> !s.todo[e.i].Deliver?
    ensures var s' := Next(s, e);
            && id < |s'.answers| == |s'.events| && id !in s'.sessions
            && (id in s'.held <==> id in s.held) && (id in s.held ==> s'.held[id] == s.held[id])
            && s'.answers[id] == s.answers[id] && s'.events[id] == s.events[id]
  {
    hide SessionOk;
    match e
    case Tell(u) => if u in s.held { TellFrame(s, u); hide Told; }
    case _ =>
  }

  lemma FateKept(s: State, e: Event, id: SessionId, route: Route, cause: Cause)
    requires Inv(s) && Fate(s, id, route, cause)
    ensures Fate(Next(s, e), id, route, cause)
  {
    if e == Tell(id) {
      if id in s.held {
        hide ToldAll, HeldOk, Settled, LiveOk;
        assert SessionOk(s, id);
        TellHeld(s, id);
        TellFrame(s, id);
        hide Told, Outline, Inv;
      }
    } else if e.Perform? && e.i < |s.todo| && s.todo[e.i].Deliver? {
      hide ToldAll, SessionOk;
      if s.todo[e.i].session == id {
        OutlineSnoc(s.events[id], s.todo[e.i].event);
        assert Outline(s.events[id]) + [] == Outline(s.events[id]);
      }
      hide Outline;
    } else {
      OutOfReach(s, e, id);
      hide Next, Inv, ToldAll, Outline;
    }
  }

  lemma {:induction false} FateOfRuns(events: seq<Event>, more: seq<Event>, id: SessionId, route: Route, cause: Cause)
    requires Fate(Run(events), id, route, cause)
    ensures Fate(Run(events + more), id, route, cause)
    decreases |more|
  {
    hide *;
    if more == [] {
      assert events + more == events;
    } else {
      var (init, e) := (more[..|more| - 1], more[|more| - 1]);
      FateOfRuns(events, init, id, route, cause);
      InvariantOfRuns(events + init);
      RunSnoc(events + init, e);
      assert more == init + [e];
      assert events + (init + [e]) == (events + init) + [e];
      FateKept(Run(events + init), e, id, route, cause);
    }
  }

  /**
   Removing an agent, whatever happens next: each of its sessions is out of the
   table for good, and is either still to be told or has been told exactly one start
   error and none of the last events, or exactly one Error followed by one Ended.
   */
  lemma RemovalTellsEachOnce(events: seq<Event>, a: AgentId, id: SessionId, more: seq<Event>)
    requires id in Run(events).sessions && Run(events).sessions[id].agent == a
    ensures var route := Run(events).sessions[id];
            var s := Run(events + [RemoveAgent(a)] + more);
            && id < |s.answers| == |s.events| && id !in s.sessions
            && if id in s.held
               then s.held[id].route == route && s.held[id].cause == AgentGone
                    && s.answers[id] == (if route.pending then [] else [Started])
                    && Outline(s.events[id]) == (if s.held[id].errorSent then [RegistryError(AgentGone)] else [])
               else if route.pending then s.answers[id] == [Refused] && Outline(s.events[id]) == []
               else s.answers[id] == [Started] && Outline(s.events[id]) == [RegistryError(AgentGone), Ended(AgentGone)]
  {
    hide Run, Outline, SessionOk;
    var removal := events + [RemoveAgent(a)];
    RunSnoc(events, RemoveAgent(a));
    InvariantOfRuns(events);
    var route := Run(events).sessions[id];
    assert Fate(Run(removal), id, route, AgentGone);
    FateOfRuns(removal, more, id, route, AgentGone);
    InvariantAt(removal + more, id);
    FateTold(Run(removal + more), id, route);
  }

  lemma FateTold(s: State, id: SessionId, route: Route)
    requires id < |s.answers| && |s.answers| == |s.events| == |s.callers| && SessionOk(s, id)
        && Fate(s, id, route, AgentGone)
    ensures if id in s.held
            then s.answers[id] == (if route.pending then [] else [Started])
                 && Outline(s.events[id]) == (if s.held[id].errorSent then [RegistryError(AgentGone)] else [])
            else if route.pending then s.answers[id] == [Refused] && Outline(s.events[id]) == []
            else s.answers[id] == [Started] && Outline(s.events[id]) == [RegistryError(AgentGone), Ended(AgentGone)]
  {
    hide Outline, Settled;
  }

  /** The other sessions' routes are not affected by it. */
  lemma RemovalSparesOthers(events: seq<Event>, a: AgentId, id: SessionId)
    requires id in Run(events).sessions && Run(events).sessions[id].agent != a
    ensures id in Run(events + [RemoveAgent(a)]).sessions
    ensures Run(events + [RemoveAgent(a)]).sessions[id] == Run(events).sessions[id]
  {
    assert (events + [RemoveAgent(a)])[..|events|] == events;
  }

  // ---- What the caller of `start_stream` learns ----

  /** A caller that got its session has one that started; once that is over it was told Ended exactly once. */
  lemma SuccessMeansStarted(events: seq<Event>, id: SessionId)
    requires id < |Run(events).callers| && Run(events).callers[id] == Returned(true)
    ensures var s := Run(events);
            && id < |s.answers| == |s.events| && s.answers[id] == [Started]
            && (id !in s.sessions && id !in s.held ==> EndedCount(s.events[id]) == 1)
  {
    InvariantOfRuns(events);
    InvariantAt(events, id);
    var s := Run(events);
    EndedIsOutlined(s.events[id]);
    hide Run, Outline, Inv;
    if id !in s.sessions && id !in s.held {
      var route, cause :| ToldAll(route, cause, s.answers[id], Outline(s.events[id]));
      FarewellEndsOnce(route, cause);
    }
  }

  /** `n` is the event at which the caller of `start_stream` got its error. */
  ghost predicate FailsAt(events: seq<Event>, id: SessionId, n: nat) {
    && n < |events|
    && !Is(Run(events[..n]), id, Returned(false))
    && Is(Run(events[..n + 1]), id, Returned(false))
  }

  lemma NobodyReturnedAtFirst(id: SessionId, ok: bool)
    ensures !Is(Run([]), id, Returned(ok))
  {
    assert Run([]) == INITIAL;
  }

  lemma {:induction false} FailureHasMoment(events: seq<Event>, id: SessionId) returns (n: nat)
    requires Is(Run(events), id, Returned(false))
    ensures FailsAt(events, id, n)
    decreases |events|
  {
    hide Run, Next, Is;
    NobodyReturnedAtFirst(id, false);
    var init := events[..|events| - 1];
    assert events[..|events|] == events;
    if Is(Run(init), id, Returned(false)) {
      n := FailureHasMoment(init, id);
      assert init[..n] == events[..n] && init[..n + 1] == events[..n + 1];
    } else {
      n := |init|;
    }
  }

  /** Once a route is out of the table, whether the start was acknowledged is settled. */
  lemma {:induction false} AcknowledgementIsFixed(events: seq<Event>, n: nat, id: SessionId)
    requires n <= |events| && id < |Run(events[..n]).answers| && id !in Run(events[..n]).sessions
    ensures id < |Run(events).answers| && id !in Run(events).sessions
    ensures Run(events).answers[id] == [Started] <==> Run(events[..n]).answers[id] == [Started]
    decreases |events|
  {
    if n == |events| {
      assert events[..n] == events;
    } else {
      var init := events[..|events| - 1];
      assert init[..n] == events[..n];
      AcknowledgementIsFixed(init, n, id);
      InvariantAt(init, id);
      InvariantOfRuns(init);
      hide Run, Outline, Settled;
      AcknowledgedKept(Run(init), events[|events| - 1], id);
    }
  }

  lemma AcknowledgedKept(s: State, e: Event, id: SessionId)
    requires Inv(s) && id < |s.answers| && id !in s.sessions
    ensures id < |Next(s, e).answers| && id !in Next(s, e).sessions
    ensures Next(s, e).answers[id] == [Started] <==> s.answers[id] == [Started]
  {
    assert SessionOk(s, id);
    if e == Tell(id) {
      if id in s.held {
        TellHeld(s, id);
        TellFrame(s, id);
        hide Told, Outline, Inv, SessionOk;
        assert [Refused][0] != [Started][0];
      }
    } else if e.Perform? && e.i < |s.todo| && s.todo[e.i].Deliver? {
      hide Outline, SessionOk, Inv;
    } else {
      OutOfReach(s, e, id);
      hide Next, Inv, Outline, SessionOk;
    }
  }

  lemma FailureMoment(s: State, e: Event, id: SessionId)
    requires Inv(s) && !Is(s, id, Returned(false)) && Is(Next(s, e), id, Returned(false))
    ensures id < |s.answers| && id !in Next(s, e).sessions && id < |Next(s, e).answers|
    ensures Next(s, e).answers[id] == s.answers[id]
  {
    hide Outline, Settled;
    match e
    case GiveUp(u) => assert SessionOk(s, u);
    case Receive(u) => assert SessionOk(s, u);
    case _ => OnlyReturns(s, e, id);
  }

  /** Nobody else moves a caller to its return. */
  lemma OnlyReturns(s: State, e: Event, id: SessionId)
    requires !e.GiveUp? && !e.Receive? && Is(Next(s, e), id, Returned(false))
    ensures Is(s, id, Returned(false))
  {
    hide Told, Performed, TakeOut, SessionsOf, SessionsWithout;
    CallersKept(s, e);
  }

  lemma CallersKept(s: State, e: Event)
    ensures (|| e.Tell? || e.Perform? || e.EndedMessage? || e.StartedMessage? || e.TextMessage? || e.ErrorMessage?
             || e.RemoveAgent?) ==>
              Next(s, e).callers == s.callers
  {
    hide SessionsOf, SessionsWithout;
  }

  /**
   A caller that got an error may still have a session that started: such a session
   is told Ended if and only if its start was acknowledged before the caller failed,
   which is when the acknowledgement was taken but came too late.
   */
  lemma EndedDespiteErrorExactly(events: seq<Event>, id: SessionId) returns (n: nat)
    requires Is(Run(events), id, Returned(false))
    ensures FailsAt(events, id, n) && id < |Run(events[..n]).answers|
    ensures var s := Run(events);
            && id < |s.answers| == |s.events| && id !in s.sessions
            && (id !in s.held ==> (EndedCount(s.events[id]) == 1 <==> Run(events[..n]).answers[id] == [Started]))
  {
    n := FailureHasMoment(events, id);
    var before := Run(events[..n]);
    assert events[..n + 1][..n] == events[..n];
    assert Run(events[..n + 1]) == Next(before, events[n]);
    InvariantOfRuns(events[..n]);
    FailureMoment(before, events[n], id);
    AcknowledgementIsFixed(events, n + 1, id);
    InvariantAt(events, id);
    hide Run, Next, Outline;
    var s := Run(events);
    EndedIsOutlined(s.events[id]);
    if id !in s.held {
      var route, cause :| ToldAll(route, cause, s.answers[id], Outline(s.events[id]));
      FarewellEndsOnce(route, cause);
    }
  }

  lemma Then(events: seq<Event>, e: Event) returns (longer: seq<Event>)
    ensures longer == events + [e] && Run(longer) == Next(Run(events), e)
  {
    longer := events + [e];
    RunSnoc(events, e);
  }

  /** Session 0 is the only one, in the table. */
  function Live(route: Route, answers: seq<Answer>, caller: Caller): State {
    State(map[0 := route], map[], [], [answers], [[]], [caller])
  }

  /** Session 0 is the only one, taken out of the table; its caller has its error. */
  function Out(held: map<SessionId, Held>, events: seq<AsrEvent>): State {
    State(map[], held, [], [[Started]], [events], [Returned(false)])
  }

  lemma TimesOutWaiting(a: AgentId)
    ensures Next(INITIAL, Register(a)) == Live(Route(a, true), [], Starting)
    ensures Next(Live(Route(a, true), [], Starting), StartSent(0)) == Live(Route(a, true), [], Waiting)
    ensures Next(Live(Route(a, true), [], Waiting), TimesOut(0)) == Live(Route(a, true), [], GivingUp)
  {}

  lemma AcknowledgedLate(a: AgentId)
    ensures Next(Live(Route(a, true), [], GivingUp), StartedMessage(0)) == Live(Route(a, false), [Started], GivingUp)
  {
    assert [] + [Started] == [Started];
    assert map[0 := Route(a, true)][0 := Route(a, false)] == map[0 := Route(a, false)];
  }

  lemma GivesUp(a: AgentId)
    ensures Next(Live(Route(a, false), [Started], GivingUp), GiveUp(0)) ==
            Out(map[0 := Held(Route(a, false), StartFailed, false)], [])
  {
    assert map[0 := Route(a, false)] - {0} == map[];
  }

  lemma TellsError(a: AgentId)
    ensures Next(Out(map[0 := Held(Route(a, false), StartFailed, false)], []), Tell(0)) ==
            Out(map[0 := Held(Route(a, false), StartFailed, true)], [RegistryError(StartFailed)])
  {
    assert [] + [RegistryError(StartFailed)] == [RegistryError(StartFailed)];
  }

  lemma TellsEnded(a: AgentId)
    ensures Next(Out(map[0 := Held(Route(a, false), StartFailed, true)], [RegistryError(StartFailed)]), Tell(0)) ==
            Out(map[], [RegistryError(StartFailed), Ended(StartFailed)])
  {
    assert map[0 := Held(Route(a, false), StartFailed, true)] - {0} == map[];
    assert [RegistryError(StartFailed)] + [Ended(StartFailed)] == [RegistryError(StartFailed), Ended(StartFailed)];
  }

  /** The late acknowledgement occurs: the caller has its error, and the session is told Error and Ended. */
  lemma LateAcknowledgementHappens(a: AgentId) returns (events: seq<Event>)
    ensures var s := Run(events);
            && s.callers == [Returned(false)] && s.sessions == map[] && s.held == map[]
            && s.answers == [[Started]] && s.events == [[RegistryError(StartFailed), Ended(StartFailed)]]
  {
    assert Run([]) == INITIAL;
    TimesOutWaiting(a);
    AcknowledgedLate(a);
    GivesUp(a);
    TellsError(a);
    TellsEnded(a);
    hide Run, Next;
    events := Then([], Register(a));
    events := Then(events, StartSent(0));
    events := Then(events, TimesOut(0));
    events := Then(events, StartedMessage(0));
    events := Then(events, GiveUp(0));
    events := Then(events, Tell(0));
    events := Then(events, Tell(0));
  }

  /** Session 0 waits for its start to be answered, and an event looked up for it waits to be delivered. */
  function LookedUp(a: AgentId): State {
    Live(Route(a, true), [], Starting).(todo := [Deliver(0, Partial)])
  }

  /** The same event when the session has been taken out of the table, and when it has been refused. */
  function TakenWith(a: AgentId): State {
    State(map[], map[0 := Held(Route(a, true), AgentGone, false)], [Deliver(0, Partial)], [[]], [[]], [Starting])
  }

  function RefusedWith(todo: seq<Op>, events: seq<AsrEvent>): State {
    State(map[], map[], todo, [[Refused]], [events], [Starting])
  }

  lemma EventIsLookedUp(a: AgentId)
    ensures Next(Next(Live(Route(a, true), [], Starting), TextMessage(0, false)), Perform(0)) == LookedUp(a)
  {
    var s := Next(Live(Route(a, true), [], Starting), TextMessage(0, false));
    assert s.todo == [LookUp(0, Partial)];
    assert s.todo[..0] + s.todo[1..] == [];
    assert [] + [Deliver(0, Partial)] == [Deliver(0, Partial)];
  }

  lemma AgentTakesRoute(a: AgentId)
    ensures Next(LookedUp(a), RemoveAgent(a)) == TakenWith(a)
  {
    var held := Held(Route(a, true), AgentGone, false);
    var s := LookedUp(a);
    assert SessionsWithout(s.sessions, a) == map[];
    assert Next(s, RemoveAgent(a)).held == map[0 := held];
  }

  lemma TellRefuses(a: AgentId)
    ensures Next(TakenWith(a), Tell(0)) == RefusedWith([Deliver(0, Partial)], [])
  {
    assert TakenWith(a).held - {0} == map[];
    assert [] + [Refused] == [Refused];
  }

  lemma EventIsDelivered()
    ensures Next(RefusedWith([Deliver(0, Partial)], []), Perform(0)) == RefusedWith([], [Partial])
  {
    var s := RefusedWith([Deliver(0, Partial)], []);
    assert s.todo[..0] + s.todo[1..] == [];
    assert [] + [Partial] == [Partial];
  }

  /** An event looked up before its agent was removed reaches a session whose start was refused meanwhile. */
  lemma LastWordsReachRefused(a: AgentId) returns (events: seq<Event>)
    ensures events == [Register(a), TextMessage(0, false), Perform(0), RemoveAgent(a), Tell(0), Perform(0)]
    ensures var s := Run(events);
            s.answers == [[Refused]] && s.events == [[Partial]] && s.sessions == map[] && s.held == map[]
  {
    assert Run([]) == INITIAL;
    TimesOutWaiting(a);
    EventIsLookedUp(a);
    AgentTakesRoute(a);
    TellRefuses(a);
    EventIsDelivered();
    hide Run, Next, Live, LookedUp, TakenWith;
    events := Then([], Register(a));
    events := Then(events, TextMessage(0, false));
    events := Then(events, Perform(0));
    events := Then(events, RemoveAgent(a));
    events := Then(events, Tell(0));
    events := Then(events, Perform(0));
  }
}
