/**
 Task routes: which request a route belongs to, and what it takes for one to be left
 behind when its requests have returned.
 */
module PlaybackRoutes {
  import opened Common
  import opened DeviceAgent
  import opened Playback
  import opened PlaybackRequests
  import opened PlaybackWaiters
  import Base64

  // ---- Requests follow their script, in every run ----

  ghost predicate Follows(req: Request) {
    var n := ChunkCount(req);
    && |req.sends| <= n + 2
    && (forall k :: 0 <= k < |req.sends| ==> req.sends[k].cmd == Script(req)[k])
    && match req.pc
       case Subscribed => req.sends == []
       case Selected(_) => req.sends == []
       case Registered(_) => req.sends == []
       case Sending(i) => |req.sends| == i + 1 && i <= n
       case Found(i, _) => |req.sends| == i + 1 && i <= n
       case Ready(i, _) => |req.sends| == i + 1 && i <= n
       case Waiting => |req.sends| == n + 2
       case TimedOut => |req.sends| == n + 2
       case _ => true
  }

  ghost predicate AllFollow(requests: seq<Request>) {
    forall r :: 0 <= r < |requests| ==> Follows(requests[r])
  }

  // ---- Whose route it is ----

  /** The request put everything out, the last of it on the connection its agent is registered with now. */
  ghost predicate SentAll(req: Request, agents: map<AgentId, Conn>) {
    && |req.sends| == ChunkCount(req) + 2
    && req.agent in agents && req.sends[|req.sends| - 1].conn == agents[req.agent]
  }

  /** A request that inserted its route and has not removed it. */
  ghost predicate Keeps(req: Request, agents: map<AgentId, Conn>) {
    match req.pc
    case Registered(_) => true
    case StartLost => true
    case Sending(_) => true
    case Found(_, a) => a == req.agent
    case Ready(_, c) => req.agent in agents && c == agents[req.agent]
    case Lost => true
    case Waiting => SentAll(req, agents)
    case TimedOut => SentAll(req, agents)
    case Done(_) => SentAll(req, agents)
    case _ => false
  }

  /** The route of `t` is request `q`'s. */
  ghost predicate IsRouteOf(s: State, t: TaskId, q: Req) {
    && t in s.tasks && q < |s.requests| && s.requests[q].task == t && s.requests[q].agent == s.tasks[t]
    && Keeps(s.requests[q], s.agents)
  }

  /** The request and the registration of its agent are as before. */
  lemma SameKeeps(s: State, s': State, t: TaskId, q: Req)
    requires IsRouteOf(s, t, q) && t in s'.tasks && s'.tasks[t] == s.tasks[t]
    requires q < |s'.requests| && s'.requests[q] == s.requests[q]
    requires s.tasks[t] in s.agents ==> s.tasks[t] in s'.agents && s'.agents[s.tasks[t]] == s.agents[s.tasks[t]]
    ensures IsRouteOf(s', t, q)
  {
    hide Pieces;
  }

  /** Agents come and go: a route that is still there leads to a registration that is still there. */
  lemma ConnectionsKeepRoute(s: State, e: Event, t: TaskId, q: Req)
    requires !e.Submit? && !e.Select? && !e.Advance? && !e.Timeout?
    requires IsRouteOf(s, t, q) && t in Next(s, e).tasks
    ensures IsRouteOf(Next(s, e), t, q)
  {
    ConnectionsKeepRequests(s, e);
    hide LinkTurn, LinkStop, IsRouteOf;
    RegistrationStays(s, e, t);
    SameKeeps(s, Next(s, e), t, q);
  }

  lemma ConnectKeepsRegistration(s: State, a: AgentId, t: TaskId)
    requires t in Connected(s, a).tasks
    ensures t in s.tasks && Connected(s, a).tasks[t] == s.tasks[t]
    ensures var b := s.tasks[t];
            b in s.agents ==> b in Connected(s, a).agents && Connected(s, a).agents[b] == s.agents[b]
  {}

  lemma UnregisterKeepsRegistration(s: State, c: Conn, t: TaskId)
    requires c < |s.links| && c < |s.owners| && t in Unregistered(s, c).tasks
    ensures t in s.tasks && Unregistered(s, c).tasks[t] == s.tasks[t]
    ensures var b := s.tasks[t];
            b in s.agents ==> b in Unregistered(s, c).agents && Unregistered(s, c).agents[b] == s.agents[b]
  {}

  lemma AnswerKeepsRoutes(s: State, t: TaskId, o: Outcomes)
    ensures Resolve(s, t, o).tasks == s.tasks && Resolve(s, t, o).agents == s.agents
    ensures Resolve(s, t, o).links == s.links
  {}

  lemma GatewayKeepsRegistration(s: State, c: Conn)
    requires c < |s.links|
    ensures GatewayStep(s, c).agents == s.agents
    ensures forall t :: t in GatewayStep(s, c).tasks ==> t in s.tasks && GatewayStep(s, c).tasks[t] == s.tasks[t]
  {
    hide Resolve;
    if s.links[c].handler.Unrouted? {
      var st := s.links[c].handler.status;
      AnswerKeepsRoutes(s, st.task, if st.state.Finished? then Completed(c, st.state.chunkCount, st.state.byteCount)
                                    else Disconnected);
    }
  }

  lemma RegistrationStays(s: State, e: Event, t: TaskId)
    requires !e.Submit? && !e.Select? && !e.Advance? && !e.Timeout?
    requires t in Next(s, e).tasks
    ensures t in s.tasks && Next(s, e).tasks[t] == s.tasks[t]
    ensures var (a, agents) := (s.tasks[t], Next(s, e).agents);
            a in s.agents ==> a in agents && agents[a] == s.agents[a]
  {
    hide LinkTurn, LinkStop, Connected, Unregistered, GatewayStep, Resolve;
    match e
    case Connect(a) => ConnectKeepsRegistration(s, a, t);
    case Unregister(c) => if c < |s.links| && c < |s.owners| { UnregisterKeepsRegistration(s, c, t); }
    case Gateway(c) => if c < |s.links| { GatewayKeepsRegistration(s, c); }
    case Orphan(c, u) => AnswerKeepsRoutes(s, u, Disconnected);
    case _ =>
  }

  lemma SentLast(req: Request, c: Conn, cmd: Command, agents: map<AgentId, Conn>)
    requires |req.sends| == ChunkCount(req) + 1 && req.agent in agents && c == agents[req.agent]
    ensures SentAll(req.(pc := Waiting, sends := req.sends + [Send(c, cmd)]), agents)
  {
    hide Pieces;
  }

  /** Routing the next command, or giving up. */
  lemma TransmitKeepsRoute(s: State, c: Conn, cmd: Command, next: Pc, lost: Pc, t: TaskId, q: Req)
    requires IsRouteOf(s, t, q) && c < |s.links|
    requires next.Sending? || (&& next.Waiting? && s.requests[q].pc == Ready(ChunkCount(s.requests[q]), c)
                               && Follows(s.requests[q]))
    requires lost.StartLost? || lost.Lost?
    ensures IsRouteOf(Transmit(s, q, c, cmd, next, lost), t, q)
  {
    hide Pieces, ScriptOf;
    if next.Waiting? {
      SentLast(s.requests[q], c, cmd, s.agents);
    }
  }

  /** The request itself moves on. */
  lemma OwnKeepsRoute(s: State, t: TaskId, q: Req)
    requires IsRouteOf(s, t, q) && Follows(s.requests[q]) && t in Advanced(s, q).tasks
    ensures IsRouteOf(Advanced(s, q), t, q)
  {
    var req := s.requests[q];
    hide Pieces, ScriptOf, Transmit, Follows;
    if req.pc.Registered? {
      var c := req.pc.conn;
      if c < |s.links| { TransmitKeepsRoute(s, c, Start(t), Sending(0), StartLost, t, q); }
    } else if req.pc.Ready? {
      var (i, c) := (req.pc.i, req.pc.conn);
      if c < |s.links| && i <= ChunkCount(req) {
        TransmitKeepsRoute(s, c, Script(req)[i + 1], if i < ChunkCount(req) then Sending(i + 1) else Waiting, Lost,
                           t, q);
      }
    } else {
      OwnMoveKeepsRoute(s, t, q);
    }
  }

  lemma OwnPcKeepsRoute(s: State, s': State, t: TaskId, q: Req, pc: Pc)
    requires IsRouteOf(s, t, q) && Keeps(s.requests[q].(pc := pc), s.agents)
    requires s'.requests == s.requests && s'.tasks == s.tasks && s'.agents == s.agents
    ensures IsRouteOf(SetPc(s', q, pc), t, q)
  {
    hide Keeps;
  }

  lemma OwnMoveKeepsRoute(s: State, t: TaskId, q: Req)
    requires IsRouteOf(s, t, q) && !s.requests[q].pc.Registered? && !s.requests[q].pc.Ready?
    requires t in Advanced(s, q).tasks
    ensures IsRouteOf(Advanced(s, q), t, q)
  {
    var req := s.requests[q];
    assert req.task == t && t in s.tasks && s.tasks[t] == req.agent;
    hide Pieces, ScriptOf, Transmit, Resolve, IsRouteOf;
    match req.pc
    case Sending(i) => OwnPcKeepsRoute(s, s, t, q, Found(i, s.tasks[t]));
    case Found(i, a) =>
      OwnPcKeepsRoute(s, s, t, q, if a in s.agents then Ready(i, s.agents[a]) else Lost);
    case Waiting =>
      OwnPcKeepsRoute(s, s, t, q, Done(Rejected));
      OwnPcKeepsRoute(s, s, t, q, Done(Accepted(req.agent, ChunkCount(req), |req.payload|)));
    case TimedOut => OwnPcKeepsRoute(s, s.(waiters := s.waiters - {t}), t, q, Done(Rejected));
    case _ =>
  }

  /** Of the registrations and routes, advancing a request touches at most its own route. */
  ghost predicate TouchesOwnRoute(s: State, s': State, req: Request) {
    && s'.agents == s.agents
    && (|| s'.tasks == s.tasks || s'.tasks == s.tasks - {req.task}
        || (req.pc.Selected? && req.task !in s.tasks && s'.tasks == s.tasks[req.task := req.agent]))
  }

  lemma TransmitTouchesNoRoute(s: State, r: Req, c: Conn, cmd: Command, next: Pc, lost: Pc)
    requires r < |s.requests| && c < |s.links|
    ensures TouchesOwnRoute(s, Transmit(s, r, c, cmd, next, lost), s.requests[r])
  {}

  lemma AdvanceTouchesOwnRoute(s: State, r: Req)
    requires r < |s.requests|
    ensures TouchesOwnRoute(s, Advanced(s, r), s.requests[r])
  {
    hide Pieces, ScriptOf, Transmit;
    var req := s.requests[r];
    match req.pc
    case Registered(c) =>
      if c < |s.links| { TransmitTouchesNoRoute(s, r, c, Start(req.task), Sending(0), StartLost); }
    case Ready(i, c) =>
      if c < |s.links| && i <= ChunkCount(req) {
        TransmitTouchesNoRoute(s, r, c, Script(req)[i + 1], if i < ChunkCount(req) then Sending(i + 1) else Waiting,
                               Lost);
      }
    case _ =>
  }

  lemma AdvanceKeepsRoute(s: State, r: Req, t: TaskId, q: Req)
    requires IsRouteOf(s, t, q) && r < |s.requests| && AllFollow(s.requests) && t in Advanced(s, r).tasks
    ensures IsRouteOf(Advanced(s, r), t, q)
  {
    assert t in s.tasks && q < |s.requests|;
    hide Keeps, Follows, Advanced;
    if r == q {
      OwnKeepsRoute(s, t, q);
    } else {
      AdvancedTouchesOne(s, r);
      AdvanceTouchesOwnRoute(s, r);
      SameKeeps(s, Advanced(s, r), t, q);
    }
  }

  /** A route that survives an event is still the same request's. */
  lemma RouteStays(s: State, e: Event, t: TaskId, q: Req)
    requires IsRouteOf(s, t, q) && AllFollow(s.requests) && t in Next(s, e).tasks
    ensures IsRouteOf(Next(s, e), t, q)
  {
    hide Advanced, Base64.Decode, Pieces, Follows;
    match e
    case Submit(_, _, _) => SameKeeps(s, Next(s, e), t, q);
    case Select(r, choice) => if r < |s.requests| && r != q { SameKeeps(s, Next(s, e), t, q); }
    case Advance(r) => if r < |s.requests| { AdvanceKeepsRoute(s, r, t, q); }
    case Timeout(r) => if r < |s.requests| && r != q { SameKeeps(s, Next(s, e), t, q); }
    case _ => ConnectionsKeepRoute(s, e, t, q);
  }

  lemma RegisterInserts(s: State, q: Req)
    requires q < |s.requests| && s.requests[q].pc.Selected? && s.requests[q].task !in s.tasks
    ensures IsRouteOf(Advanced(s, q), s.requests[q].task, q)
  {
    hide Pieces;
  }

  lemma OthersInsertNothing(s: State, e: Event, t: TaskId)
    requires !e.Advance? && t in Next(s, e).tasks
    ensures t in s.tasks
  {
    hide Base64.Decode;
    if !e.Submit? && !e.Select? && !e.Timeout? {
      hide Next;
      RegistrationStays(s, e, t);
    }
  }

  /** A route appears only when a request inserts it. */
  lemma RouteStarts(s: State, e: Event, t: TaskId) returns (q: Req)
    requires t !in s.tasks && t in Next(s, e).tasks
    ensures e == Advance(q) && q < |s.requests| && s.requests[q].pc.Selected? && s.requests[q].task == t
    ensures IsRouteOf(Next(s, e), t, q)
  {
    hide Advanced, IsRouteOf;
    if e.Advance? {
      q := e.req;
      AdvanceTouchesOwnRoute(s, q);
      RegisterInserts(s, q);
    } else {
      q := 0;
      hide Next;
      OthersInsertNothing(s, e, t);
    }
  }

  // ---- Requests keep following ----

  lemma PcKeepsFollowing(req: Request, req': Request)
    requires Follows(req) && req' == req.(pc := req'.pc, agent := req'.agent)
    requires req' == req ||
             match req'.pc
             case Subscribed => false
             case Selected(_) => req.pc.Subscribed?
             case Registered(_) => req.pc.Selected?
             case Sending(_) => false
             case Found(i, _) => req.pc == Sending(i)
             case Ready(i, _) => req.pc.Found? && req.pc.i == i
             case Waiting => req.pc.Waiting?
             case TimedOut => req.pc.Waiting?
             case _ => true
    ensures Follows(req')
  {
    assert Script(req') == Script(req);
    hide ScriptOf, Pieces;
  }

  lemma SendKeepsFollowing(req: Request, c: Conn, next: Pc)
    requires Follows(req) && |req.sends| < |Script(req)|
    requires (req.pc.Registered? && next == Sending(0))
          || (req.pc.Ready? && next == if req.pc.i < ChunkCount(req) then Sending(req.pc.i + 1) else Waiting)
    ensures Follows(req.(pc := next, sends := req.sends + [Send(c, Script(req)[|req.sends|])]))
  {
    hide ScriptOf, Pieces;
    var req' := req.(pc := next, sends := req.sends + [Send(c, Script(req)[|req.sends|])]);
    assert Script(req') == Script(req);
  }

  lemma NewFollows(s: State, e: Event)
    requires e.Submit?
    ensures Follows(Next(s, e).requests[|s.requests|])
    ensures |Next(s, e).requests| == |s.requests| + 1
    ensures forall r :: 0 <= r < |s.requests| ==> Next(s, e).requests[r] == s.requests[r]
  {
    hide Pieces, Base64.Decode;
  }

  lemma AdvanceFollows(s: State, r: Req)
    requires r < |s.requests| && Follows(s.requests[r])
    ensures r < |Advanced(s, r).requests| && Follows(Advanced(s, r).requests[r])
  {
    var pc := s.requests[r].pc;
    hide Follows, Advanced;
    if pc.Registered? || pc.Ready? {
      SendFollows(s, r);
    } else {
      MoveFollows(s, r);
    }
  }

  lemma SetPcAt(s: State, r: Req, pc: Pc)
    requires r < |s.requests|
    ensures r < |SetPc(s, r, pc).requests| && SetPc(s, r, pc).requests[r] == s.requests[r].(pc := pc)
  {}

  lemma MoveFollows(s: State, r: Req)
    requires r < |s.requests| && Follows(s.requests[r]) && !s.requests[r].pc.Registered? && !s.requests[r].pc.Ready?
    ensures r < |Advanced(s, r).requests| && Follows(Advanced(s, r).requests[r])
  {
    hide Follows, Pieces, ScriptOf, Transmit, Resolve, SetPc;
    var req := s.requests[r];
    var t := req.task;
    match req.pc
    case Selected(c) =>
      MovesTo(s, s, r, StartFailed);
      MovesTo(s, s.(tasks := s.tasks[t := req.agent]), r, Registered(c));
    case StartLost => MovesTo(s, s.(tasks := s.tasks - {t}), r, StartFailed);
    case Sending(i) =>
      MovesTo(s, s, r, Done(Rejected));
      if t in s.tasks { MovesTo(s, s, r, Found(i, s.tasks[t])); }
    case Found(i, a) =>
      MovesTo(s, s, r, Lost);
      if a in s.agents { MovesTo(s, s, r, Ready(i, s.agents[a])); }
    case Lost => MovesTo(s, s.(tasks := s.tasks - {t}), r, LostRemoved);
    case LostRemoved =>
      ResolveSparesRequests(s, t);
      MovesTo(s, Resolve(s, t, Disconnected), r, Done(Rejected));
    case Waiting =>
      MovesTo(s, s, r, Done(Rejected));
      MovesTo(s, s, r, Done(Accepted(req.agent, ChunkCount(req), |req.payload|)));
    case Subscribed =>
    case Done(_) =>
    case _ => MovesTo(s, s.(waiters := s.waiters - {t}), r, Done(Rejected));
  }

  /** A request moves on in a state that has the same requests. */
  lemma MovesTo(s: State, s': State, r: Req, pc: Pc)
    requires r < |s.requests| && Follows(s.requests[r]) && s'.requests == s.requests
    requires var from := s.requests[r].pc;
             match pc
             case Registered(_) => from.Selected?
             case Found(i, _) => from == Sending(i)
             case Ready(i, _) => from.Found? && from.i == i
             case Done(_) => true
             case StartFailed => true
             case Lost => true
             case LostRemoved => true
             case _ => false
    ensures r < |SetPc(s', r, pc).requests| && Follows(SetPc(s', r, pc).requests[r])
  {
    SetPcAt(s', r, pc);
    hide Follows, SetPc;
    PcKeepsFollowing(s.requests[r], s.requests[r].(pc := pc));
  }

  lemma ResolveSparesRequests(s: State, t: TaskId)
    ensures Resolve(s, t, Disconnected).requests == s.requests
  {}

  /** Such a request puts the next command of its script on its connection, if there is one. */
  lemma SendIsTransmit(s: State, r: Req, next: Pc, lost: Pc)
    requires r < |s.requests| && (s.requests[r].pc.Registered? || s.requests[r].pc.Ready?)
    requires var req := s.requests[r];
             && |req.sends| < |Script(req)| && Script(req)[0] == Start(req.task)
             && |req.sends| == (if req.pc.Registered? then 0 else req.pc.i + 1)
             && next == (if req.pc.Registered? then Sending(0)
                         else if req.pc.i < ChunkCount(req) then Sending(req.pc.i + 1) else Waiting)
             && lost == if req.pc.Registered? then StartLost else Lost
    ensures var (req, c) := (s.requests[r], s.requests[r].pc.conn);
            Advanced(s, r) == s
            || (c < |s.links| && Advanced(s, r) == Transmit(s, r, c, Script(req)[|req.sends|], next, lost))
  {
    hide ScriptOf, Pieces, Transmit;
  }

  lemma SendFollows(s: State, r: Req)
    requires r < |s.requests| && Follows(s.requests[r]) && (s.requests[r].pc.Registered? || s.requests[r].pc.Ready?)
    ensures r < |Advanced(s, r).requests| && Follows(Advanced(s, r).requests[r])
  {
    hide *;
    var req := s.requests[r];
    var c := req.pc.conn;
    MoreToSend(req);
    var next := if req.pc.Registered? then Sending(0)
                else if req.pc.i < ChunkCount(req) then Sending(req.pc.i + 1) else Waiting;
    var lost := if req.pc.Registered? then StartLost else Lost;
    SendIsTransmit(s, r, next, lost);
    if c < |s.links| {
      TransmittedFollows(s, r, c, next, lost);
    }
  }

  lemma TransmittedFollows(s: State, r: Req, c: Conn, next: Pc, lost: Pc)
    requires r < |s.requests| && c < |s.links| && Follows(s.requests[r])
    requires |s.requests[r].sends| < |Script(s.requests[r])|
    requires var req := s.requests[r];
             || (req.pc.Registered? && next == Sending(0) && lost == StartLost && req.sends == [])
             || (&& req.pc.Ready? && lost.Lost?
                 && next == if req.pc.i < ChunkCount(req) then Sending(req.pc.i + 1) else Waiting)
    ensures var s' := Transmit(s, r, c, Script(s.requests[r])[|s.requests[r].sends|], next, lost);
            r < |s'.requests| && Follows(s'.requests[r])
  {
    hide ScriptOf, Pieces, Follows;
    if s.links[c].open {
      SendKeepsFollowing(s.requests[r], c, next);
    } else {
      PcKeepsFollowing(s.requests[r], s.requests[r].(pc := lost));
    }
  }

  lemma MoreToSend(req: Request)
    requires Follows(req) && (req.pc.Registered? || req.pc.Ready?)
    ensures |Script(req)| == ChunkCount(req) + 2 && Script(req)[0] == Start(req.task)
    ensures |req.sends| == if req.pc.Registered? then 0 else req.pc.i + 1
    ensures |req.sends| < |Script(req)|
  {
    hide Pieces, Base64.Encode;
  }

  lemma EventFollows(s: State, e: Event)
    requires AllFollow(s.requests)
    ensures AllFollow(Next(s, e).requests)
  {
    hide Follows, Advanced, Base64.Decode, Pieces;
    match e
    case Submit(_, _, _) => NewFollows(s, e);
    case Select(r, choice) =>
      if r < |s.requests| && s.requests[r].pc.Subscribed? {
        PcKeepsFollowing(s.requests[r], Next(s, e).requests[r]);
      }
    case Advance(r) =>
      if r < |s.requests| {
        AdvancedTouchesOne(s, r);
        AdvanceFollows(s, r);
      }
    case Timeout(r) =>
      if r < |s.requests| && s.requests[r].pc.Waiting? {
        PcKeepsFollowing(s.requests[r], s.requests[r].(pc := TimedOut));
      }
    case _ => ConnectionsKeepRequests(s, e);
  }

  lemma {:induction false} RequestsFollow(events: seq<Event>)
    ensures AllFollow(Run(events).requests)
  {
    hide Next, Follows;
    if events != [] {
      RequestsFollow(events[..|events| - 1]);
      EventFollows(Run(events[..|events| - 1]), events[|events| - 1]);
    }
  }

  // ---- Every run ----

  /** In every run a route belongs to a request that inserted it and has not removed it. */
  lemma {:induction false} RouteHasRequest(events: seq<Event>, t: TaskId) returns (q: Req)
    requires t in Run(events).tasks
    ensures IsRouteOf(Run(events), t, q)
    decreases |events|
  {
    hide Next, IsRouteOf, AllFollow;
    NoRouteAtFirst(t);
    var (init, e) := (events[..|events| - 1], events[|events| - 1]);
    if t in Run(init).tasks {
      RequestsFollow(init);
      q := RouteHasRequest(init, t);
      RouteStays(Run(init), e, t, q);
    } else {
      q := RouteStarts(Run(init), e, t);
    }
  }

  lemma NoRouteAtFirst(t: TaskId)
    ensures t !in Run([]).tasks
  {}

  /**
   In every run, whatever ids its requests use: a route whose requests have all
   returned was left by one that put its whole script out, and put the finish on the
   connection the route's agent is registered with now. Every other way to return
   takes the route along, or finds it gone.
   */
  lemma RoutesLeftBehind(events: seq<Event>, t: TaskId) returns (q: Req)
    requires var s := Run(events);
             t in s.tasks && forall r :: 0 <= r < |s.requests| && s.requests[r].task == t ==> s.requests[r].pc.Done?
    ensures var s := Run(events);
            && q < |s.requests| && s.requests[q].task == t
            && var req := s.requests[q];
            && |req.sends| == |Script(req)| && (forall k :: 0 <= k < |req.sends| ==> req.sends[k].cmd == Script(req)[k])
            && s.tasks[t] == req.agent && req.agent in s.agents
            && req.sends[|req.sends| - 1] == Send(s.agents[req.agent], Finish(t))
  {
    q := RouteHasRequest(events, t);
    RequestsFollow(events);
    hide Run, Pieces, Base64.Encode;
    var req := Run(events).requests[q];
    assert Follows(req) && req.pc.Done?;
    assert Script(req)[|Script(req)| - 1] == Finish(t);
    hide ScriptOf;
  }
}
