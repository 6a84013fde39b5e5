/**
 The gateway's session routes and task waiters (the agent registry of the
 gateway crate): first the registry itself, changed in place, then the session
 routes as a state machine whose steps are the lock scopes.
 */
module SessionRoutes {
  import opened Common
  import DeviceRegistry

  /** Session ids are fresh; the model numbers sessions in the order of registration. */
  type SessionId = nat

  /** `pending`: the start has not been answered, the route still holds `started_tx`. */
  datatype Route = Route(agent: AgentId, pending: bool)

  datatype Answer = Started | Refused

  /** Why a route was taken out of the table. */
  datatype Cause = AgentGone | StartFailed | AgentEnded

  /** What a session is sent: the agent's own events, and the last ones, which are the registry's. */
  datatype AsrEvent = Partial | Final | AgentError | RegistryError(cause: Cause) | Ended(cause: Cause)

  /** What the sender of a removed route owes its session: a start error, or its last events. */
  function FarewellAnswers(route: Route): seq<Answer> {
    if route.pending then [Refused] else []
  }

  function FarewellEvents(route: Route, cause: Cause): seq<AsrEvent> {
    if route.pending then []
    else if cause.AgentEnded? then [Ended(cause)]
    else [RegistryError(cause), Ended(cause)]
  }

  /** The sessions routed to `a`. */
  function SessionsOf(sessions: map<SessionId, Route>, a: AgentId): map<SessionId, Route> {
    map s | s in sessions && sessions[s].agent == a :: sessions[s]
  }

  function SessionsWithout(sessions: map<SessionId, Route>, a: AgentId): map<SessionId, Route> {
    map s | s in sessions && sessions[s].agent != a :: sessions[s]
  }

  /** Removing an agent splits the table exactly: nothing lost, nothing kept twice, no route altered. */
  lemma RemovalPartitionsSessions(sessions: map<SessionId, Route>, a: AgentId)
    ensures SessionsOf(sessions, a).Keys !! SessionsWithout(sessions, a).Keys
    ensures SessionsOf(sessions, a) + SessionsWithout(sessions, a) == sessions
    ensures forall s :: s in SessionsOf(sessions, a) <==> s in sessions && sessions[s].agent == a
  {
    assert (SessionsOf(sessions, a) + SessionsWithout(sessions, a)).Keys == sessions.Keys;
  }

  // ---- What the registry's senders have put on their channels ----

  type Receiver = nat

  datatype WaitResult = Completed | Disconnected

  function Sent<K, V>(channels: map<K, seq<V>>, k: K): seq<V> {
    if k in channels then channels[k] else []
  }

  function Put<K, V>(channels: map<K, seq<V>>, k: K, more: seq<V>): map<K, seq<V>> {
    if more == [] then channels else channels[k := Sent(channels, k) + more]
  }

  lemma PutAppends<K, V>(channels: map<K, seq<V>>, k: K, more: seq<V>)
    ensures Sent(Put(channels, k, more), k) == Sent(channels, k) + more
    ensures forall l :: l != k ==> Sent(Put(channels, k, more), l) == Sent(channels, l)
  {}

  /** Tells one removed session what it is owed. */
  function TellOne(answers: map<SessionId, seq<Answer>>, events: map<SessionId, seq<AsrEvent>>,
                   s: SessionId, route: Route, cause: Cause)
    : (map<SessionId, seq<Answer>>, map<SessionId, seq<AsrEvent>>)
  {
    (Put(answers, s, FarewellAnswers(route)), Put(events, s, FarewellEvents(route, cause)))
  }

  function TellEach(answers: map<SessionId, seq<Answer>>, events: map<SessionId, seq<AsrEvent>>,
                    orphans: seq<(SessionId, Route)>): (map<SessionId, seq<Answer>>, map<SessionId, seq<AsrEvent>>)
    decreases |orphans|
  {
    if orphans == [] then (answers, events)
    else
      var (before, o) := (orphans[..|orphans| - 1], orphans[|orphans| - 1]);
      var (a, e) := TellEach(answers, events, before);
      TellOne(a, e, o.0, o.1, AgentGone)
  }

  ghost predicate DistinctSessions(orphans: seq<(SessionId, Route)>) {
    forall i, j :: 0 <= i < j < |orphans| ==> orphans[i].0 != orphans[j].0
  }

  /** A session that is no orphan is told nothing. */
  lemma {:induction false} TellEachSparesOthers(answers: map<SessionId, seq<Answer>>,
                                                events: map<SessionId, seq<AsrEvent>>,
                                                orphans: seq<(SessionId, Route)>, s: SessionId)
    requires forall i :: 0 <= i < |orphans| ==> orphans[i].0 != s
    ensures var (a, e) := TellEach(answers, events, orphans);
            Sent(a, s) == Sent(answers, s) && Sent(e, s) == Sent(events, s)
    decreases |orphans|
  {
    hide FarewellAnswers, FarewellEvents, Put, Sent;
    if orphans != [] {
      var (before, o) := (orphans[..|orphans| - 1], orphans[|orphans| - 1]);
      TellEachSparesOthers(answers, events, before, s);
      var (a, e) := TellEach(answers, events, before);
      PutAppends(a, o.0, FarewellAnswers(o.1));
      PutAppends(e, o.0, FarewellEvents(o.1, AgentGone));
    }
  }

  /** Every orphan gets exactly one farewell. */
  lemma {:induction false} TellEachOnce(answers: map<SessionId, seq<Answer>>, events: map<SessionId, seq<AsrEvent>>,
                                        orphans: seq<(SessionId, Route)>, i: nat)
    requires DistinctSessions(orphans) && i < |orphans|
    ensures var (a, e) := TellEach(answers, events, orphans);
            var (s, route) := orphans[i];
            && Sent(a, s) == Sent(answers, s) + FarewellAnswers(route)
            && Sent(e, s) == Sent(events, s) + FarewellEvents(route, AgentGone)
    decreases |orphans|
  {
    hide FarewellAnswers, FarewellEvents, Put, Sent;
    var (before, o) := (orphans[..|orphans| - 1], orphans[|orphans| - 1]);
    var (a, e) := TellEach(answers, events, before);
    PutAppends(a, o.0, FarewellAnswers(o.1));
    PutAppends(e, o.0, FarewellEvents(o.1, AgentGone));
    if i < |before| {
      TellEachOnce(answers, events, before, i);
      assert before[i] == orphans[i];
    } else {
      TellEachSparesOthers(answers, events, before, o.0);
    }
  }

  /** The orphans are the entries of `m`, each once. */
  ghost predicate Lists(orphans: seq<(SessionId, Route)>, m: map<SessionId, Route>) {
    DistinctSessions(orphans) && forall s, route :: (s, route) in orphans <==> s in m && route == m[s]
  }

  lemma ListedAt(orphans: seq<(SessionId, Route)>, m: map<SessionId, Route>, s: SessionId) returns (i: nat)
    requires Lists(orphans, m) && s in m
    ensures i < |orphans| && orphans[i] == (s, m[s])
  {
    assert (s, m[s]) in orphans;
    i :| 0 <= i < |orphans| && orphans[i] == (s, m[s]);
  }

  lemma NotListed(orphans: seq<(SessionId, Route)>, m: map<SessionId, Route>, s: SessionId)
    requires Lists(orphans, m) && s !in m
    ensures forall i :: 0 <= i < |orphans| ==> orphans[i].0 != s
  {
    forall i | 0 <= i < |orphans|
      ensures orphans[i].0 != s
    {
      assert (orphans[i].0, orphans[i].1) in orphans;
    }
  }

  /** Takes a task's waiter out and answers it. */
  function ResolveOne(waiters: map<TaskId, Receiver>, resolved: map<Receiver, seq<WaitResult>>, task: TaskId,
                      result: WaitResult)
    : (map<TaskId, Receiver>, map<Receiver, seq<WaitResult>>)
  {
    if task in waiters then (waiters - {task}, resolved[waiters[task] := Sent(resolved, waiters[task]) + [result]])
    else (waiters, resolved)
  }

  function ResolveEach(waiters: map<TaskId, Receiver>, resolved: map<Receiver, seq<WaitResult>>, tasks: seq<TaskId>)
    : (map<TaskId, Receiver>, map<Receiver, seq<WaitResult>>)
    decreases |tasks|
  {
    if tasks == [] then (waiters, resolved)
    else
      var (w, r) := ResolveEach(waiters, resolved, tasks[..|tasks| - 1]);
      ResolveOne(w, r, tasks[|tasks| - 1], Disconnected)
  }

  ghost predicate Injective(waiters: map<TaskId, Receiver>) {
    forall t, u :: t in waiters && u in waiters && t != u ==> waiters[t] != waiters[u]
  }

  /** Only the waiters of `tasks` are taken out. */
  lemma {:induction false} ResolveEachRemoves(waiters: map<TaskId, Receiver>, resolved: map<Receiver, seq<WaitResult>>,
                                              tasks: seq<TaskId>, t: TaskId)
    ensures var w := ResolveEach(waiters, resolved, tasks).0;
            (t in w <==> t in waiters && t !in tasks) && (t in w ==> w[t] == waiters[t])
    decreases |tasks|
  {
    if tasks != [] {
      ResolveEachRemoves(waiters, resolved, tasks[..|tasks| - 1], t);
      ResolveEachRemoves(waiters, resolved, tasks[..|tasks| - 1], tasks[|tasks| - 1]);
      assert tasks == tasks[..|tasks| - 1] + [tasks[|tasks| - 1]];
    }
  }

  /** The waiter of task `t`, if any, gets one Disconnected exactly when `t` is listed, however often. */
  lemma {:induction false} ResolveEachOnce(waiters: map<TaskId, Receiver>, resolved: map<Receiver, seq<WaitResult>>,
                                           tasks: seq<TaskId>, t: TaskId)
    requires Injective(waiters) && t in waiters
    ensures Sent(ResolveEach(waiters, resolved, tasks).1, waiters[t]) ==
            Sent(resolved, waiters[t]) + if t in tasks then [Disconnected] else []
    decreases |tasks|
  {
    if tasks != [] {
      var (before, u) := (tasks[..|tasks| - 1], tasks[|tasks| - 1]);
      ResolveEachOnce(waiters, resolved, before, t);
      ResolveEachRemoves(waiters, resolved, before, u);
      assert tasks == before + [u];
    }
  }

  lemma {:induction false} ResolveEachSparesOthers(waiters: map<TaskId, Receiver>,
                                                   resolved: map<Receiver, seq<WaitResult>>,
                                                   tasks: seq<TaskId>, r: Receiver)
    requires r !in waiters.Values
    ensures Sent(ResolveEach(waiters, resolved, tasks).1, r) == Sent(resolved, r)
    decreases |tasks|
  {
    if tasks != [] {
      ResolveEachSparesOthers(waiters, resolved, tasks[..|tasks| - 1], r);
      ResolveEachRemoves(waiters, resolved, tasks[..|tasks| - 1], tasks[|tasks| - 1]);
    }
  }

  lemma EachRemovedTogether(waiters: map<TaskId, Receiver>, resolved: map<Receiver, seq<WaitResult>>,
                            tasks: seq<TaskId>)
    ensures ResolveEach(waiters, resolved, tasks).0 == waiters - set t | t in tasks
  {
    hide ResolveEach;
    forall t
      ensures var w := ResolveEach(waiters, resolved, tasks).0;
              (t in w <==> t in waiters && t !in tasks) && (t in w ==> w[t] == waiters[t])
    {
      ResolveEachRemoves(waiters, resolved, tasks, t);
    }
  }

  // ---- What the registry keeps ----

  /** No two waiters share a receiver, and a receiver that still has its waiter has been sent nothing. */
  ghost predicate WaitersValid(waiters: map<TaskId, Receiver>, resolved: map<Receiver, seq<WaitResult>>,
                               next: Receiver)
  {
    && Injective(waiters)
    && (forall t :: t in waiters ==> waiters[t] < next && waiters[t] !in resolved)
    && (forall r :: r in resolved ==> r < next && |resolved[r]| == 1)
  }

  /** A route's start has been answered exactly when it is not pending, and no start twice. */
  ghost predicate RoutesValid(sessions: map<SessionId, Route>, answers: map<SessionId, seq<Answer>>,
                              events: map<SessionId, seq<AsrEvent>>, next: SessionId) {
    && (forall s :: s in sessions ==>
          s < next && if sessions[s].pending then s !in answers else s in answers && answers[s] == [Started])
    && (forall s :: s in answers ==> s < next && |answers[s]| == 1)
    && (forall s :: s in events ==> s < next)
  }

  lemma ResolveOneKeeps(waiters: map<TaskId, Receiver>, resolved: map<Receiver, seq<WaitResult>>, next: Receiver,
                        task: TaskId, result: WaitResult)
    requires WaitersValid(waiters, resolved, next)
    ensures var (w, r) := ResolveOne(waiters, resolved, task, result); WaitersValid(w, r, next)
  {}

  lemma {:induction false} ResolveEachKeeps(waiters: map<TaskId, Receiver>, resolved: map<Receiver, seq<WaitResult>>,
                                            next: Receiver, tasks: seq<TaskId>)
    requires WaitersValid(waiters, resolved, next)
    ensures var (w, r) := ResolveEach(waiters, resolved, tasks); WaitersValid(w, r, next)
    decreases |tasks|
  {
    if tasks != [] {
      hide WaitersValid, ResolveOne;
      ResolveEachKeeps(waiters, resolved, next, tasks[..|tasks| - 1]);
      var (w, r) := ResolveEach(waiters, resolved, tasks[..|tasks| - 1]);
      ResolveOneKeeps(w, r, next, tasks[|tasks| - 1], Disconnected);
    }
  }

  /** `orphans` are routes of `before` that `after` no longer has; the others are the same in both. */
  ghost predicate TakenOut(orphans: seq<(SessionId, Route)>, before: map<SessionId, Route>,
                           after: map<SessionId, Route>)
  {
    && DistinctSessions(orphans)
    && (forall i :: 0 <= i < |orphans| ==>
        orphans[i].0 in before && before[orphans[i].0] == orphans[i].1 && orphans[i].0 !in after)
    && (forall s :: s in after ==> s in before && after[s] == before[s])
  }

  /** Telling routes that have been taken out of the table keeps what it promises of those left. */
  lemma {:induction false} TellEachKeeps(before: map<SessionId, Route>, after: map<SessionId, Route>,
                                         answers: map<SessionId, seq<Answer>>, events: map<SessionId, seq<AsrEvent>>,
                                         next: SessionId, orphans: seq<(SessionId, Route)>)
    requires RoutesValid(before, answers, events, next) && TakenOut(orphans, before, after)
    ensures var (a, e) := TellEach(answers, events, orphans); RoutesValid(after, a, e, next)
    decreases |orphans|
  {
    if orphans != [] {
      var (init, o) := (orphans[..|orphans| - 1], orphans[|orphans| - 1]);
      var middle := after[o.0 := o.1];
      assert TakenOut(init, before, middle) by {
        assert forall i :: 0 <= i < |init| ==> init[i] == orphans[i];
      }
      hide TakenOut, RoutesValid;
      TellEachKeeps(before, middle, answers, events, next, init);
      var (a, e) := TellEach(answers, events, init);
      assert o.0 !in after by { LastIsOut(orphans, before, after); }
      assert middle - {o.0} == after;
      TellOneKeeps(middle, a, e, next, o.0, AgentGone);
    }
  }

  lemma ListedAreTakenOut(orphans: seq<(SessionId, Route)>, before: map<SessionId, Route>, agent: AgentId)
    requires Lists(orphans, SessionsOf(before, agent))
    ensures TakenOut(orphans, before, SessionsWithout(before, agent))
  {
    forall i | 0 <= i < |orphans|
      ensures orphans[i].0 in SessionsOf(before, agent) && before[orphans[i].0] == orphans[i].1
    {
      assert (orphans[i].0, orphans[i].1) in orphans;
    }
  }

  lemma LastIsOut(orphans: seq<(SessionId, Route)>, before: map<SessionId, Route>, after: map<SessionId, Route>)
    requires TakenOut(orphans, before, after) && orphans != []
    ensures orphans[|orphans| - 1].0 !in after
  {}

  lemma TellOneKeeps(sessions: map<SessionId, Route>, answers: map<SessionId, seq<Answer>>,
                     events: map<SessionId, seq<AsrEvent>>, next: SessionId, s: SessionId, cause: Cause)
    requires RoutesValid(sessions, answers, events, next) && s in sessions
    ensures var (a, e) := TellOne(answers, events, s, sessions[s], cause); RoutesValid(sessions - {s}, a, e, next)
    ensures Sent(TellOne(answers, events, s, sessions[s], cause).0, s) ==
            [if sessions[s].pending then Refused else Started]
  {}

  /** What telling all orphans of `agent` comes to. */
  ghost predicate AllTold(before: map<SessionId, Route>, agent: AgentId,
                          answers: map<SessionId, seq<Answer>>, events: map<SessionId, seq<AsrEvent>>,
                          a: map<SessionId, seq<Answer>>, e: map<SessionId, seq<AsrEvent>>) {
    && (forall s :: s in SessionsOf(before, agent) ==>
          && Sent(a, s) == [if before[s].pending then Refused else Started]
          && Sent(e, s) == Sent(events, s) + FarewellEvents(before[s], AgentGone))
    && (forall s :: s !in SessionsOf(before, agent) ==> Sent(a, s) == Sent(answers, s) && Sent(e, s) == Sent(events, s))
  }

  lemma TellEachTells(before: map<SessionId, Route>, agent: AgentId, answers: map<SessionId, seq<Answer>>,
                      events: map<SessionId, seq<AsrEvent>>, next: SessionId, orphans: seq<(SessionId, Route)>)
    requires RoutesValid(before, answers, events, next) && Lists(orphans, SessionsOf(before, agent))
    ensures var (a, e) := TellEach(answers, events, orphans);
            RoutesValid(SessionsWithout(before, agent), a, e, next) && AllTold(before, agent, answers, events, a, e)
  {
    hide TellEach, FarewellEvents, TakenOut, RoutesValid, Lists, Sent;
    ListedAreTakenOut(orphans, before, agent);
    TellEachKeeps(before, SessionsWithout(before, agent), answers, events, next, orphans);
    var (a, e) := TellEach(answers, events, orphans);
    forall s | s in SessionsOf(before, agent)
      ensures Sent(a, s) == [if before[s].pending then Refused else Started]
      ensures Sent(e, s) == Sent(events, s) + FarewellEvents(before[s], AgentGone)
    {
      OrphanTold(before, agent, answers, events, next, orphans, s);
    }
    forall s | s !in SessionsOf(before, agent)
      ensures Sent(a, s) == Sent(answers, s) && Sent(e, s) == Sent(events, s)
    {
      NotListed(orphans, SessionsOf(before, agent), s);
      TellEachSparesOthers(answers, events, orphans, s);
    }
  }

  lemma OrphanTold(before: map<SessionId, Route>, agent: AgentId, answers: map<SessionId, seq<Answer>>,
                   events: map<SessionId, seq<AsrEvent>>, next: SessionId, orphans: seq<(SessionId, Route)>,
                   s: SessionId)
    requires RoutesValid(before, answers, events, next) && Lists(orphans, SessionsOf(before, agent))
    requires s in SessionsOf(before, agent)
    ensures var (a, e) := TellEach(answers, events, orphans);
            && Sent(a, s) == [if before[s].pending then Refused else Started]
            && Sent(e, s) == Sent(events, s) + FarewellEvents(before[s], AgentGone)
  {
    hide TellEach, FarewellEvents;
    var i := ListedAt(orphans, SessionsOf(before, agent), s);
    TellEachOnce(answers, events, orphans, i);
    assert Sent(answers, s) == if before[s].pending then [] else [Started];
  }

  // ---- The registry, in place ----

  datatype StartError = NoSpeaker | AlreadyActive | NotDelivered

  class GatewayRegistry {
    /** The device crate's registry, behind a lock of its own. */
    const device: DeviceRegistry.AgentRegistry
    var sessions: map<SessionId, Route>
    /** Task waiters: the receiving end each sender answers. */
    var waiters: map<TaskId, Receiver>
    /** What was sent on the oneshot and event channels of each session, and to each waiter. */
    var answers: map<SessionId, seq<Answer>>
    var events: map<SessionId, seq<AsrEvent>>
    var resolved: map<Receiver, seq<WaitResult>>
    /** The channels and sessions made so far. */
    var nextReceiver: Receiver
    var nextSession: SessionId

    ghost predicate Valid()
      reads this
    {
      WaitersValid(waiters, resolved, nextReceiver) && RoutesValid(sessions, answers, events, nextSession)
    }

    constructor (device: DeviceRegistry.AgentRegistry)
      ensures Valid() && this.device == device
      ensures sessions == map[] && waiters == map[] && answers == map[] && events == map[] && resolved == map[]
    {
      this.device := device;
      sessions, waiters, answers, events, resolved := map[], map[], map[], map[], map[];
      nextReceiver, nextSession := 0, 0;
    }

    function AnswersTo(s: SessionId): seq<Answer>
      reads this
    {
      Sent(answers, s)
    }

    function EventsTo(s: SessionId): seq<AsrEvent>
      reads this
    {
      Sent(events, s)
    }

    function ResultsTo(r: Receiver): seq<WaitResult>
      reads this
    {
      Sent(resolved, r)
    }

    // ---- Task waiters ----

    /** A new waiter gets a channel of its own; an earlier one for the same id is dropped unanswered. */
    method SubscribeTaskWaiter(task: TaskId) returns (receiver: Receiver)
      requires Valid()
      modifies this`waiters, this`nextReceiver
      ensures Valid() && waiters == old(waiters)[task := receiver]
      ensures receiver !in old(waiters).Values && ResultsTo(receiver) == []
    {
      receiver := nextReceiver;
      nextReceiver := nextReceiver + 1;
      waiters := waiters[task := receiver];
    }

    method RemoveTaskWaiter(task: TaskId)
      requires Valid()
      modifies this`waiters
      ensures Valid() && waiters == old(waiters) - {task}
    {
      waiters := waiters - {task};
    }

    /** A waiter is answered once: its channel was unused and is not a waiter's any more. */
    method ResolveTaskWaiter(task: TaskId, result: WaitResult)
      requires Valid()
      modifies this`waiters, this`resolved
      ensures Valid() && task !in waiters
      ensures (waiters, resolved) == ResolveOne(old(waiters), old(resolved), task, result)
      ensures task in old(waiters) ==> ResultsTo(old(waiters)[task]) == [result]
    {
      ResolveOneKeeps(waiters, resolved, nextReceiver, task, result);
      if task in waiters {
        resolved := resolved[waiters[task] := ResultsTo(waiters[task]) + [result]];
        waiters := waiters - {task};
      }
    }

    method AnswerOrphanedTasks(tasks: seq<TaskId>)
      requires Valid()
      modifies this`waiters, this`resolved
      ensures Valid() && waiters == old(waiters) - set t | t in tasks
      ensures forall t :: t in old(waiters) ==> ResultsTo(old(waiters)[t]) == if t in tasks then [Disconnected] else []
      ensures forall r :: r !in old(waiters).Values ==> ResultsTo(r) == old(ResultsTo(r))
    {
      hide RoutesValid;
      for k := 0 to |tasks|
        invariant Valid()
        invariant (waiters, resolved) == ResolveEach(old(waiters), old(resolved), tasks[..k])
      {
        hide ResolveOne, WaitersValid;
        assert tasks[..k + 1][..k] == tasks[..k];
        ResolveTaskWaiter(tasks[k], Disconnected);
      }
      assert tasks[..|tasks|] == tasks;
      hide ResolveEach, Sent;
      EachRemovedTogether(old(waiters), old(resolved), tasks);
      forall t | t in old(waiters)
        ensures ResultsTo(old(waiters)[t]) == if t in tasks then [Disconnected] else []
      {
        ResolveEachOnce(old(waiters), old(resolved), tasks, t);
      }
      forall r | r !in old(waiters).Values
        ensures ResultsTo(r) == old(ResultsTo(r))
      {
        ResolveEachSparesOthers(old(waiters), old(resolved), tasks, r);
      }
    }

    // ---- Session routes ----

    method RegisterSession(agent: AgentId) returns (s: SessionId)
      requires Valid()
      modifies this`sessions, this`nextSession
      ensures Valid() && s !in old(sessions) && sessions == old(sessions)[s := Route(agent, true)]
      ensures AnswersTo(s) == [] && EventsTo(s) == []
    {
      hide WaitersValid;
      s := nextSession;
      nextSession := nextSession + 1;
      sessions := sessions[s := Route(agent, true)];
    }

    /** The start is answered if it has not been; a route already gone is left alone. */
    method MarkSessionStarted(s: SessionId)
      requires Valid()
      modifies this`sessions, this`answers
      ensures Valid()
      ensures sessions == if s in old(sessions) then old(sessions)[s := old(sessions)[s].(pending := false)]
                          else old(sessions)
      ensures s in sessions ==> AnswersTo(s) == [Started]
      ensures forall u :: u != s || u !in sessions ==> AnswersTo(u) == old(AnswersTo(u))
    {
      hide WaitersValid;
      if s in sessions {
        if sessions[s].pending {
          answers := answers[s := AnswersTo(s) + [Started]];
        }
        sessions := sessions[s := sessions[s].(pending := false)];
      }
    }

    method RouteEvent(s: SessionId, e: AsrEvent)
      requires Valid()
      modifies this`events
      ensures Valid()
      ensures EventsTo(s) == old(EventsTo(s)) + if s in sessions then [e] else []
      ensures forall u :: u != s ==> EventsTo(u) == old(EventsTo(u))
    {
      hide WaitersValid;
      if s in sessions {
        events := events[s := EventsTo(s) + [e]];
      }
    }

    /** A removed route is told exactly what it is owed. */
    method Farewell(s: SessionId, route: Route, cause: Cause)
      modifies this`answers, this`events
      ensures AnswersTo(s) == old(AnswersTo(s)) + FarewellAnswers(route)
      ensures EventsTo(s) == old(EventsTo(s)) + FarewellEvents(route, cause)
      ensures (answers, events) == TellOne(old(answers), old(events), s, route, cause)
    {
      PutAppends(answers, s, FarewellAnswers(route));
      PutAppends(events, s, FarewellEvents(route, cause));
      if route.pending {
        answers := answers[s := AnswersTo(s) + [Refused]];
      } else {
        if !cause.AgentEnded? {
          events := events[s := EventsTo(s) + [RegistryError(cause)]];
          assert old(EventsTo(s)) + [RegistryError(cause)] + [Ended(cause)] ==
            old(EventsTo(s)) + [RegistryError(cause), Ended(cause)];
        }
        events := events[s := EventsTo(s) + [Ended(cause)]];
      }
      assert events == Put(old(events), s, FarewellEvents(route, cause));
    }

    /** Takes a session's route out and tells it what it is owed; a session already gone is told nothing. */
    method EndSession(s: SessionId, cause: Cause)
      requires Valid() && !cause.AgentGone?
      modifies this`sessions, this`answers, this`events
      ensures Valid() && sessions == old(sessions) - {s}
      ensures s !in old(sessions) ==> answers == old(answers) && events == old(events)
      ensures s in old(sessions) ==>
                && AnswersTo(s) == [if old(sessions)[s].pending then Refused else Started]
                && EventsTo(s) == old(EventsTo(s)) + FarewellEvents(old(sessions)[s], cause)
                && forall u :: u != s ==> AnswersTo(u) == old(AnswersTo(u)) && EventsTo(u) == old(EventsTo(u))
    {
      hide WaitersValid;
      if s in sessions {
        var route := sessions[s];
        PutAppends(answers, s, FarewellAnswers(route));
        PutAppends(events, s, FarewellEvents(route, cause));
        sessions := sessions - {s};
        Farewell(s, route, cause);
        hide Sent, Put, FarewellEvents;
      }
    }

    /** Takes out all and only the routes naming `agent`, each once. */
    method RemoveOrphanedSessions(agent: AgentId) returns (impacted: seq<(SessionId, Route)>)
      modifies this`sessions
      ensures sessions == SessionsWithout(old(sessions), agent)
      ensures Lists(impacted, SessionsOf(old(sessions), agent))
    {
      impacted := [];
      var ids := set s | s in sessions && sessions[s].agent == agent;
      var todo := ids;
      while todo != {}
        invariant todo <= ids
        invariant sessions == map s | s in old(sessions) && s !in ids - todo :: old(sessions)[s]
        invariant forall s, route :: (s, route) in impacted <==> s in ids - todo && route == old(sessions)[s]
        invariant DistinctSessions(impacted)
      {
        var s :| s in todo;
        forall i | 0 <= i < |impacted| ensures impacted[i].0 != s {
          assert (impacted[i].0, impacted[i].1) in impacted;
        }
        impacted := impacted + [(s, sessions[s])];
        sessions := sessions - {s};
        todo := todo - {s};
      }
    }

    /** What the sessions are told when `agent`'s routes leave the table `before`. */
    twostate predicate SessionsTold(before: map<SessionId, Route>, agent: AgentId)
      reads this
    {
      && (forall s :: s in SessionsOf(before, agent) ==>
            && AnswersTo(s) == [if before[s].pending then Refused else Started]
            && EventsTo(s) == old(EventsTo(s)) + FarewellEvents(before[s], AgentGone))
      && (forall s :: s !in SessionsOf(before, agent) ==>
          AnswersTo(s) == old(AnswersTo(s)) && EventsTo(s) == old(EventsTo(s)))
    }

    /** What the waiters are told when the routes of `tasks` are gone. */
    twostate predicate WaitersTold(tasks: set<TaskId>)
      reads this
    {
      && waiters == old(waiters) - tasks
      && (forall t :: t in old(waiters) ==> ResultsTo(old(waiters)[t]) == if t in tasks then [Disconnected] else [])
      && (forall r :: r !in old(waiters).Values ==> ResultsTo(r) == old(ResultsTo(r)))
    }

    method TellAll(orphans: seq<(SessionId, Route)>)
      modifies this`answers, this`events
      ensures (answers, events) == TellEach(old(answers), old(events), orphans)
    {
      for k := 0 to |orphans|
        invariant (answers, events) == TellEach(old(answers), old(events), orphans[..k])
      {
        hide FarewellAnswers, FarewellEvents, TellOne, Sent;
        assert orphans[..k + 1][..k] == orphans[..k];
        Farewell(orphans[k].0, orphans[k].1, AgentGone);
      }
      assert orphans[..|orphans|] == orphans;
    }

    method TellOrphans(ghost before: map<SessionId, Route>, ghost agent: AgentId, orphans: seq<(SessionId, Route)>)
      requires RoutesValid(before, answers, events, nextSession)
      requires sessions == SessionsWithout(before, agent) && Lists(orphans, SessionsOf(before, agent))
      modifies this`answers, this`events
      ensures RoutesValid(sessions, answers, events, nextSession) && SessionsTold(before, agent)
    {
      hide TellEach, RoutesValid, Lists, FarewellEvents, Sent, SessionsWithout;
      TellEachTells(before, agent, answers, events, nextSession, orphans);
      TellAll(orphans);
    }

    /**
     Tells every orphaned session and answers every orphaned task's waiter: each
     session gets one farewell, each waiter one Disconnected, nobody else anything.
     */
    method FinishAgentRemoval(ghost before: map<SessionId, Route>, ghost agent: AgentId,
                              orphans: seq<(SessionId, Route)>, tasks: seq<TaskId>)
      requires WaitersValid(waiters, resolved, nextReceiver) && RoutesValid(before, answers, events, nextSession)
      requires sessions == SessionsWithout(before, agent) && Lists(orphans, SessionsOf(before, agent))
      modifies this`answers, this`events, this`waiters, this`resolved
      ensures Valid() && SessionsTold(before, agent) && WaitersTold(set t | t in tasks)
    {
      hide WaitersValid, RoutesValid, Lists, Sent, SessionsOf, SessionsWithout, FarewellEvents;
      TellOrphans(before, agent, orphans);
      label told:
      AnswerOrphanedTasks(tasks);
      assert forall s :: AnswersTo(s) == old@told(AnswersTo(s)) && EventsTo(s) == old@told(EventsTo(s));
    }

    // ---- Agents come and go ----

    /** A registration ends the agent's sessions; only one that replaces another ends its tasks. */
    method RegisterAgent(agent: DeviceRegistry.RegisteredAgent)
      requires Valid()
      modifies this, device
      ensures Valid() && device.agents == old(device.agents)[agent.agentId := agent]
      ensures sessions == SessionsWithout(old(sessions), agent.agentId) && SessionsTold(old(sessions), agent.agentId)
      ensures agent.agentId in old(device.agents) ==>
                && device.tasks == DeviceRegistry.TasksWithout(old(device.tasks), agent.agentId)
                && WaitersTold(DeviceRegistry.TasksOf(old(device.tasks), agent.agentId))
      ensures agent.agentId !in old(device.agents) ==> device.tasks == old(device.tasks) && WaitersTold({})
    {
      hide WaitersValid, RoutesValid, Lists, Sent, SessionsOf, SessionsWithout, FarewellEvents;
      hide DeviceRegistry.TasksOf, DeviceRegistry.TasksWithout;
      var orphans := RemoveOrphanedSessions(agent.agentId);
      var tasks := device.RegisterAgent(agent);
      FinishAgentRemoval(old(sessions), agent.agentId, orphans, tasks);
    }

    method UnregisterAgent(agentId: AgentId)
      requires Valid()
      modifies this, device
      ensures Valid() && device.agents == old(device.agents) - {agentId}
      ensures sessions == SessionsWithout(old(sessions), agentId) && SessionsTold(old(sessions), agentId)
      ensures device.tasks == DeviceRegistry.TasksWithout(old(device.tasks), agentId)
      ensures WaitersTold(DeviceRegistry.TasksOf(old(device.tasks), agentId))
    {
      hide WaitersValid, RoutesValid, Lists, Sent, SessionsOf, SessionsWithout, FarewellEvents;
      hide DeviceRegistry.TasksOf, DeviceRegistry.TasksWithout;
      var orphans := RemoveOrphanedSessions(agentId);
      var tasks := device.RemoveAgentTasksLocked(agentId);
      FinishAgentRemoval(old(sessions), agentId, orphans, tasks);
    }

    // ---- Requests that use the tables ----

    /**
     The start of a play_audio request: waiter, agent, route and start command. On any
     error the id is left without a waiter, also without one that an earlier request
     with the id was waiting on, and the routes are as they were.
     */
    method StartPlayAudio(task: TaskId, deviceId: Option<string>, agentId: Option<AgentId>, delivered: bool)
      returns (r: Result<(DeviceRegistry.RegisteredAgent, Receiver), StartError>)
      requires Valid()
      modifies this`waiters, this`nextReceiver, device`tasks
      ensures Valid()
      ensures r == Err(NoSpeaker) <==> !DeviceRegistry.HasSpeaker(device.agents, deviceId, agentId)
      ensures r == Err(AlreadyActive) ==> task in old(device.tasks)
      ensures r == Err(NotDelivered) ==> task !in old(device.tasks) && !delivered
      ensures r.Err? ==> waiters == old(waiters) - {task} && device.tasks == old(device.tasks)
      ensures r.Ok? ==>
                var (agent, receiver) := r.value;
                && agent in device.agents.Values && DeviceRegistry.SpeakerMatches(agent, deviceId, agentId)
                && receiver !in old(waiters).Values && ResultsTo(receiver) == []
                && waiters == old(waiters)[task := receiver] && delivered
                && task !in old(device.tasks) && device.tasks == old(device.tasks)[task := agent.agentId]
    {
      hide WaitersValid, RoutesValid, DeviceRegistry.HasSpeaker, DeviceRegistry.SpeakerMatches;
      var receiver := SubscribeTaskWaiter(task);
      var found := device.SelectSpeakerAgent(deviceId, agentId);
      if found.None? {
        RemoveTaskWaiter(task);
        return Err(NoSpeaker);
      }
      var registered := device.RegisterTask(task, found.value.agentId);
      if !registered {
        RemoveTaskWaiter(task);
        return Err(AlreadyActive);
      }
      if !delivered {
        device.RemoveTask(task);
        RemoveTaskWaiter(task);
        return Err(NotDelivered);
      }
      return Ok((found.value, receiver));
    }

    /** The start of a session: its route, and the start command; a failed send refuses it at once. */
    method StartStream(agent: AgentId, delivered: bool) returns (s: SessionId)
      requires Valid()
      modifies this`sessions, this`nextSession, this`answers, this`events
      ensures Valid() && s !in old(sessions) && EventsTo(s) == []
      ensures sessions == if delivered then old(sessions)[s := Route(agent, true)] else old(sessions)
      ensures AnswersTo(s) == if delivered then [] else [Refused]
      ensures forall u :: u != s ==> AnswersTo(u) == old(AnswersTo(u)) && EventsTo(u) == old(EventsTo(u))
    {
      hide WaitersValid, RoutesValid, Sent;
      s := RegisterSession(agent);
      if !delivered {
        EndSession(s, StartFailed);
      }
    }
  }
}
