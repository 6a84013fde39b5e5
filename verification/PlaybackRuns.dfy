/**
 One task id through a whole run: the request that uses it now, the connections
 since that request was submitted, and the requests that used it before.
 */
module PlaybackRuns {
  import opened Common
  import opened DeviceAgent
  import opened Playback
  import opened PlaybackLinks
  import opened PlaybackWaiters
  import Base64
  import DeviceRegistry

  // ---- A request on its way ----

  /** Connection `c` was registered by agent `a`, no later than the current registration of `a`. */
  ghost predicate Bounded(c: Conn, a: AgentId, agents: map<AgentId, Conn>, owners: seq<AgentId>) {
    c < |owners| && owners[c] == a && (a in agents ==> c <= agents[a])
  }

  ghost predicate PcOk(req: Request, agents: map<AgentId, Conn>, owners: seq<AgentId>) {
    var n := ChunkCount(req);
    match req.pc
    case Subscribed => req.sends == []
    case Selected(c) => req.sends == [] && Bounded(c, req.agent, agents, owners)
    case Registered(c) => req.sends == [] && Bounded(c, req.agent, agents, owners)
    case StartLost => req.sends == []
    case StartFailed => req.sends == []
    case Sending(i) => |req.sends| == i + 1 && i <= n
    case Found(i, a) => |req.sends| == i + 1 && i <= n && a == req.agent
    case Ready(i, c) =>
      |req.sends| == i + 1 && i <= n && Bounded(c, req.agent, agents, owners) && req.sends[i].conn <= c
    case Lost => true
    case LostRemoved => true
    case Waiting => |req.sends| == n + 2
    case TimedOut => |req.sends| == n + 2
    case Done(reply) =>
      reply.Accepted? ==> |req.sends| == n + 2 && reply == Accepted(req.agent, n, |req.payload|)
  }

  /** The request has followed its script, on connections of one agent and never back to an older one. */
  ghost predicate RequestOk(req: Request, agents: map<AgentId, Conn>, owners: seq<AgentId>) {
    && |req.sends| <= ChunkCount(req) + 2
    && (forall k :: 0 <= k < |req.sends| ==> req.sends[k].cmd == Script(req)[k])
    && (forall k :: 0 <= k < |req.sends| ==> Bounded(req.sends[k].conn, req.agent, agents, owners))
    && (forall j, k :: 0 <= j < k < |req.sends| ==> req.sends[j].conn <= req.sends[k].conn)
    && PcOk(req, agents, owners)
  }

  /** A registration is newer than every connection there is, so bounds survive it. */
  lemma BoundsSurviveConnect(req: Request, agents: map<AgentId, Conn>, owners: seq<AgentId>, a: AgentId)
    requires RequestOk(req, agents, owners)
    ensures RequestOk(req, agents[a := |owners|], owners + [a])
  {
    hide ScriptOf, Pieces;
    forall k | 0 <= k < |req.sends| ensures Bounded(req.sends[k].conn, req.agent, agents[a := |owners|], owners + [a]) {
      assert Bounded(req.sends[k].conn, req.agent, agents, owners);
    }
  }

  lemma BoundsSurviveRemoval(req: Request, agents: map<AgentId, Conn>, owners: seq<AgentId>, a: AgentId)
    requires RequestOk(req, agents, owners)
    ensures RequestOk(req, agents - {a}, owners)
  {
    hide ScriptOf, Pieces;
    forall k | 0 <= k < |req.sends| ensures Bounded(req.sends[k].conn, req.agent, agents - {a}, owners) {
      assert Bounded(req.sends[k].conn, req.agent, agents, owners);
    }
  }

  /** Routing the next command of the script on connection `c`. */
  ghost predicate MaySend(req: Request, c: Conn, agents: map<AgentId, Conn>, owners: seq<AgentId>) {
    && |req.sends| < ChunkCount(req) + 2
    && Bounded(c, req.agent, agents, owners)
    && (req.sends != [] ==> req.sends[|req.sends| - 1].conn <= c)
  }

  lemma SendKeepsRequest(req: Request, c: Conn, next: Pc, agents: map<AgentId, Conn>, owners: seq<AgentId>)
    requires RequestOk(req, agents, owners) && MaySend(req, c, agents, owners)
    requires PcOk(req.(pc := next, sends := req.sends + [Send(c, Script(req)[|req.sends|])]), agents, owners)
    ensures RequestOk(req.(pc := next, sends := req.sends + [Send(c, Script(req)[|req.sends|])]), agents, owners)
  {
    hide ScriptOf, Pieces;
    var req' := req.(pc := next, sends := req.sends + [Send(c, Script(req)[|req.sends|])]);
    assert Script(req') == Script(req);
    assert forall k :: 0 <= k < |req.sends| ==> req'.sends[k] == req.sends[k];
    forall k | 0 <= k < |req.sends| ensures req'.sends[k].conn <= c {
      assert req.sends[k].conn <= req.sends[|req.sends| - 1].conn;
    }
  }

  /** A request about to send command `i + 1` has sent those before, on this connection or earlier ones. */
  lemma ReadyMaySend(req: Request, agents: map<AgentId, Conn>, owners: seq<AgentId>)
    requires RequestOk(req, agents, owners) && req.pc.Ready?
    ensures var (i, c) := (req.pc.i, req.pc.conn);
            var next := if i < ChunkCount(req) then Sending(i + 1) else Waiting;
            && i <= ChunkCount(req) && |req.sends| == i + 1 && i + 1 < |Script(req)|
            && MaySend(req, c, agents, owners)
            && PcOk(req.(pc := next, sends := req.sends + [Send(c, Script(req)[i + 1])]), agents, owners)
  {}

  /** Every command of a script is for the request's id. */
  lemma ScriptNamesTask(req: Request, k: nat)
    requires k < |Script(req)|
    ensures Script(req)[k].task == req.task
    ensures k == 0 ==> Script(req)[k] == Start(req.task)
  {
    hide Pieces, Base64.Encode;
  }

  /** What a connection carries of a script is a subsequence of it, so start and finish stay at the ends. */
  lemma {:induction false} ScriptHasShape(c: Conn, sends: seq<Send>, task: TaskId, payload: seq<byte>, size: nat)
    requires |sends| <= |ScriptOf(task, payload, size)|
    requires forall k :: 0 <= k < |sends| ==> sends[k].cmd == ScriptOf(task, payload, size)[k]
    ensures Shape(To(c, sends))
    ensures |sends| < |ScriptOf(task, payload, size)| ==>
              forall j :: 0 <= j < |To(c, sends)| ==> !To(c, sends)[j].Finish?
  {
    if sends != [] {
      var init := sends[..|sends| - 1];
      ScriptHasShape(c, init, task, payload, size);
      if |sends| == 1 {
        assert To(c, init) == [];
      }
    }
  }

  // ---- The state of one id ----

  /** The request was accepted, or rejected before it put anything on a connection. */
  predicate Settled(req: Request) {
    req.pc.Done? && (req.pc.reply.Accepted? || req.sends == [])
  }

  /** Apart from `o`, the requests with this id are settled. */
  ghost predicate OthersSettled(requests: seq<Request>, t: TaskId, o: Option<Req>) {
    forall q :: 0 <= q < |requests| && requests[q].task == t && o != Some(q) ==> Settled(requests[q])
  }

  function MarkAt(marks: seq<Mark>, c: Conn): Mark {
    if c < |marks| then marks[c] else Mark(0, 0, None)
  }

  /** What the current request has put on connection `c`. */
  function Mine(requests: seq<Request>, o: Option<Req>, c: Conn): seq<Command> {
    if o.Some? && o.value < |requests| then To(c, requests[o.value].sends) else []
  }

  ghost predicate WiresOk(requests: seq<Request>, links: seq<Link>, t: TaskId, o: Option<Req>, marks: seq<Mark>) {
    && |marks| <= |links|
    && forall c :: 0 <= c < |links| ==> EpochOk(links[c], t, MarkAt(marks, c), Mine(requests, o, c))
  }

  ghost predicate Unrouting(links: seq<Link>, t: TaskId) {
    exists c :: 0 <= c < |links| && links[c].handler.Unrouted? && links[c].handler.status.task == t
  }

  /** The route of the id is the current request's, and no Finished report of it has been taken yet. */
  ghost predicate RouteOk(s: State, t: TaskId, r: Req)
    requires r < |s.requests|
  {
    t in s.tasks ==>
      && s.tasks[t] == s.requests[r].agent
      && (s.requests[r].pc.Registered? || s.requests[r].pc.StartLost? || s.requests[r].sends != [])
      && !(r in s.results && s.results[r].Completed?)
      && !Unrouting(s.links, t)
  }

  /** A request answered "completed" was reported finished by that connection, since it was submitted. */
  ghost predicate AnswerOk(s: State, t: TaskId, r: Req, marks: seq<Mark>) {
    r in s.results && s.results[r].Completed? ==>
      var o := s.results[r];
      o.conn < |s.links| && HeardFinish(s.links[o.conn], t, MarkAt(marks, o.conn).heard, o.chunkCount, o.byteCount)
  }

  ghost predicate OwnOk(s: State, t: TaskId, r: Req, marks: seq<Mark>) {
    && r < |s.requests| && s.requests[r].task == t
    && RequestOk(s.requests[r], s.agents, s.owners)
    && (t in s.waiters ==> s.waiters[t] == r)
    && RouteOk(s, t, r)
    && AnswerOk(s, t, r, marks)
  }

  /** `o` is the current request of id `t`, and `marks` are the connections when it was submitted. */
  ghost predicate IdOk(s: State, t: TaskId, o: Option<Req>, marks: seq<Mark>) {
    && OthersSettled(s.requests, t, o)
    && WiresOk(s.requests, s.links, t, o, marks)
    && (o.None? ==> t !in s.tasks)
    && (o.Some? ==> OwnOk(s, t, o.value, marks))
  }

  // ---- What leaves the id alone ----

  /** The gateway only goes on reading this connection's statuses. */
  ghost predicate Later(l: Link, l': Link) {
    && l.statuses <= l'.statuses && l.read <= l'.read
    && (Holds(l'.handler) ==> l.read < l'.read || Holds(l.handler))
  }

  lemma HeardStays(l: Link, l': Link, t: TaskId, heard: nat, chunkCount: nat, byteCount: nat)
    requires Later(l, l') && HeardFinish(l, t, heard, chunkCount, byteCount)
    ensures HeardFinish(l', t, heard, chunkCount, byteCount)
  {
    var i :| heard <= i < l.read && i < |l.statuses| && DealtWith(l, t, i, chunkCount, byteCount);
    assert DealtWith(l', t, i, chunkCount, byteCount);
  }

  lemma OwnStays(s: State, s': State, t: TaskId, r: Req, marks: seq<Mark>)
    requires OwnOk(s, t, r, marks)
    requires r < |s'.requests| && s'.requests[r] == s.requests[r]
    requires RequestOk(s.requests[r], s'.agents, s'.owners)
    requires t in s'.waiters ==> t in s.waiters && s'.waiters[t] == s.waiters[t]
    requires t in s'.tasks ==> t in s.tasks && s'.tasks[t] == s.tasks[t]
    requires t in s'.tasks && Unrouting(s'.links, t) ==> Unrouting(s.links, t)
    requires r in s'.results && s'.results[r].Completed? ==> r in s.results && s'.results[r] == s.results[r]
    requires |s.links| <= |s'.links| && forall c :: 0 <= c < |s.links| ==> Later(s.links[c], s'.links[c])
    ensures OwnOk(s', t, r, marks)
  {
    hide RequestOk, Later, HeardFinish, Unrouting;
    if r in s'.results && s'.results[r].Completed? {
      var o := s.results[r];
      assert Later(s.links[o.conn], s'.links[o.conn]);
      HeardStays(s.links[o.conn], s'.links[o.conn], t, MarkAt(marks, o.conn).heard, o.chunkCount, o.byteCount);
    }
  }

  lemma IdStays(s: State, s': State, t: TaskId, o: Option<Req>, marks: seq<Mark>)
    requires IdOk(s, t, o, marks)
    requires |s.requests| <= |s'.requests|
    requires forall q :: 0 <= q < |s.requests| && s.requests[q].task == t ==> s'.requests[q] == s.requests[q]
    requires forall q :: 0 <= q < |s'.requests| && s'.requests[q].task == t ==>
               Settled(s'.requests[q]) || (q < |s.requests| && s'.requests[q] == s.requests[q])
    requires o.Some? ==> RequestOk(s.requests[o.value], s'.agents, s'.owners)
    requires t in s'.waiters ==> t in s.waiters && s'.waiters[t] == s.waiters[t]
    requires t in s'.tasks ==> t in s.tasks && s'.tasks[t] == s.tasks[t]
    requires t in s'.tasks && Unrouting(s'.links, t) ==> Unrouting(s.links, t)
    requires o.Some? && o.value in s'.results && s'.results[o.value].Completed? ==>
               o.value in s.results && s'.results[o.value] == s.results[o.value]
    requires |s.links| <= |s'.links| && forall c :: 0 <= c < |s.links| ==> Later(s.links[c], s'.links[c])
    requires WiresOk(s'.requests, s'.links, t, o, marks)
    ensures IdOk(s', t, o, marks)
  {
    hide WiresOk, Later, RequestOk, Unrouting;
    if o.Some? {
      OwnStays(s, s', t, o.value, marks);
    }
  }

  lemma Same(l: Link)
    ensures Later(l, l)
  {}

  /** Neither the requests of the id nor the connections change. */
  lemma WiresStay(s: State, s': State, t: TaskId, o: Option<Req>, marks: seq<Mark>)
    requires IdOk(s, t, o, marks) && s'.links == s.links
    requires o.Some? ==> o.value < |s'.requests| && s'.requests[o.value] == s.requests[o.value]
    ensures WiresOk(s'.requests, s'.links, t, o, marks)
    ensures forall c :: 0 <= c < |s.links| ==> Later(s.links[c], s'.links[c])
  {
    hide EpochOk, RequestOk, To;
    forall c | 0 <= c < |s.links| ensures EpochOk(s'.links[c], t, MarkAt(marks, c), Mine(s'.requests, o, c)) {
      assert Mine(s'.requests, o, c) == Mine(s.requests, o, c);
    }
  }

  lemma IdGives(s: State, t: TaskId, o: Option<Req>, marks: seq<Mark>)
    requires IdOk(s, t, o, marks)
    ensures o.Some? ==> o.value < |s.requests| && s.requests[o.value].task == t
    ensures o.Some? ==> RequestOk(s.requests[o.value], s.agents, s.owners)
    ensures |marks| <= |s.links|
  {}

  lemma RoutesRemovedKeep(s: State, tasks: map<TaskId, AgentId>, t: TaskId, o: Option<Req>, marks: seq<Mark>)
    requires IdOk(s, t, o, marks)
    requires t in tasks ==> t in s.tasks && tasks[t] == s.tasks[t]
    ensures IdOk(s.(tasks := tasks), t, o, marks)
  {
    hide IdOk, WiresOk, RequestOk, Later, Unrouting;
    IdGives(s, t, o, marks);
    WiresStay(s, s.(tasks := tasks), t, o, marks);
    IdStays(s, s.(tasks := tasks), t, o, marks);
  }

  lemma WaiterDroppedKeeps(s: State, u: TaskId, t: TaskId, o: Option<Req>, marks: seq<Mark>)
    requires IdOk(s, t, o, marks)
    ensures IdOk(s.(waiters := s.waiters - {u}), t, o, marks)
  {
    hide IdOk, WiresOk, RequestOk, Later, Unrouting;
    IdGives(s, t, o, marks);
    WiresStay(s, s.(waiters := s.waiters - {u}), t, o, marks);
    IdStays(s, s.(waiters := s.waiters - {u}), t, o, marks);
  }

  lemma AgentRemovedKeeps(s: State, a: AgentId, t: TaskId, o: Option<Req>, marks: seq<Mark>)
    requires IdOk(s, t, o, marks)
    ensures IdOk(s.(agents := s.agents - {a}), t, o, marks)
  {
    hide IdOk, WiresOk, RequestOk, Later, Unrouting;
    IdGives(s, t, o, marks);
    if o.Some? {
      BoundsSurviveRemoval(s.requests[o.value], s.agents, s.owners, a);
    }
    WiresStay(s, s.(agents := s.agents - {a}), t, o, marks);
    IdStays(s, s.(agents := s.agents - {a}), t, o, marks);
  }

  /** Whoever owns the waiter of `u` is a request with that id. */
  ghost predicate OwnerHasId(s: State, u: TaskId) {
    u in s.waiters ==> s.waiters[u] < |s.requests| && s.requests[s.waiters[u]].task == u
  }

  lemma OwnersHaveIds(s: State, u: TaskId)
    requires Inv(s)
    ensures OwnerHasId(s, u)
  {
    hide SomeoneClears, SomeoneOwes, LinkSane;
    if u in s.waiters {
      assert WaiterOk(s, u);
    }
  }

  /** A waiter is answered; a "completed" answer for the id rests on a report dealt with. */
  lemma ResolveKeepsId(s: State, u: TaskId, x: Outcomes, t: TaskId, o: Option<Req>, marks: seq<Mark>)
    requires IdOk(s, t, o, marks) && OwnerHasId(s, u)
    requires u == t && x.Completed? ==>
               && t !in s.tasks && x.conn < |s.links|
               && HeardFinish(s.links[x.conn], t, MarkAt(marks, x.conn).heard, x.chunkCount, x.byteCount)
    ensures IdOk(Resolve(s, u, x), t, o, marks)
  {
    hide RequestOk, Unrouting, HeardFinish, EpochOk;
    var s' := Resolve(s, u, x);
    if o.Some? {
      hide WiresOk, OthersSettled;
      assert u in s.waiters && s.waiters[u] == o.value ==> u == t;
    }
  }

  // ---- Connections ----

  /** One connection moves on. */
  lemma LinkMovesId(s: State, c: Conn, l: Link, t: TaskId, o: Option<Req>, marks: seq<Mark>)
    requires IdOk(s, t, o, marks) && c < |s.links|
    requires EpochOk(l, t, MarkAt(marks, c), Mine(s.requests, o, c)) && Later(s.links[c], l)
    requires t in s.tasks && l.handler.Unrouted? && l.handler.status.task == t ==>
               s.links[c].handler.Unrouted? && s.links[c].handler.status.task == t
    ensures IdOk(s.(links := s.links[c := l]), t, o, marks)
  {
    hide EpochOk, RequestOk, OwnOk, OthersSettled;
    var s' := s.(links := s.links[c := l]);
    if t in s'.tasks && Unrouting(s'.links, t) {
      var d :| 0 <= d < |s'.links| && s'.links[d].handler.Unrouted? && s'.links[d].handler.status.task == t;
      assert s.links[d].handler.Unrouted? && s.links[d].handler.status.task == t;
    }
    hide Unrouting;
    assert WiresOk(s'.requests, s'.links, t, o, marks);
    assert OthersSettled(s.requests, t, o);
    IdGives(s, t, o, marks);
    hide WiresOk, IdOk;
    forall d | 0 <= d < |s.links| ensures Later(s.links[d], s'.links[d]) {
      Same(s.links[d]);
    }
    hide Later;
    SameRequests(s, s', t, o, marks);
  }

  /** The requests and tables stay as they are. */
  lemma SameRequests(s: State, s': State, t: TaskId, o: Option<Req>, marks: seq<Mark>)
    requires IdOk(s, t, o, marks) && s'.(links := s.links) == s
    requires t in s'.tasks && Unrouting(s'.links, t) ==> Unrouting(s.links, t)
    requires |s.links| <= |s'.links| && forall c :: 0 <= c < |s.links| ==> Later(s.links[c], s'.links[c])
    requires WiresOk(s'.requests, s'.links, t, o, marks)
    ensures IdOk(s', t, o, marks)
  {
    hide IdOk, WiresOk, RequestOk, Later, Unrouting;
    IdGives(s, t, o, marks);
    IdStays(s, s', t, o, marks);
  }

  lemma EpochAt(s: State, c: Conn, t: TaskId, o: Option<Req>, marks: seq<Mark>)
    requires IdOk(s, t, o, marks) && c < |s.links|
    ensures EpochOk(s.links[c], t, MarkAt(marks, c), Mine(s.requests, o, c))
  {
    hide EpochOk, OwnOk, OthersSettled;
  }

  lemma HandlerMovesId(s: State, c: Conn, h: Handler, t: TaskId, o: Option<Req>, marks: seq<Mark>)
    requires IdOk(s, t, o, marks) && c < |s.links|
    requires LinkSane(s.links[c].(handler := h)) && (Holds(h) ==> Holds(s.links[c].handler))
    requires t in s.tasks && h.Unrouted? ==> h.status.task != t
    ensures IdOk(SetHandler(s, c, h), t, o, marks)
  {
    hide IdOk, EpochOk, LinkSane;
    EpochAt(s, c, t, o, marks);
    HandlerKeepsEpoch(s.links[c], h, t, MarkAt(marks, c), Mine(s.requests, o, c));
    LinkMovesId(s, c, s.links[c].(handler := h), t, o, marks);
  }

  lemma GatewayKeepsId(s: State, c: Conn, t: TaskId, o: Option<Req>, marks: seq<Mark>)
    requires Inv(s) && IdOk(s, t, o, marks) && c < |s.links|
    ensures IdOk(GatewayStep(s, c), t, o, marks)
  {
    hide IdOk, WaitersOk, OnceOk, RepliesOk, AgentsOk, EpochOk;
    var l := s.links[c];
    assert LinkSane(l);
    match l.handler
    case Removing(pending, closing) =>
      if pending == {} {
        HandlerMovesId(s, c, Closed, t, o, marks);
        if !closing && l.open {
          EpochAt(s, c, t, o, marks);
          GreetKeepsEpoch(l, t, MarkAt(marks, c), Mine(s.requests, o, c));
          LinkMovesId(s, c, l.(handler := Serving, greeted := Some(|l.sent|)), t, o, marks);
        }
      }
    case Serving =>
      if l.read < |l.statuses| {
        EpochAt(s, c, t, o, marks);
        ReadKeepsEpoch(l, t, MarkAt(marks, c), Mine(s.requests, o, c));
        LinkMovesId(s, c, l.(read := l.read + 1, handler := Looking(l.statuses[l.read])), t, o, marks);
      }
    case Looking(st) =>
      HandlerMovesId(s, c, if st.task in s.tasks && Terminal(st.state) then Routed(st) else Serving, t, o, marks);
    case Routed(st) =>
      RoutesRemovedKeep(s, s.tasks - {st.task}, t, o, marks);
      HandlerMovesId(s.(tasks := s.tasks - {st.task}), c, Unrouted(st), t, o, marks);
    case Unrouted(st) => UnroutedKeepsId(s, c, t, o, marks);
    case Closed =>
  }

  lemma UnroutingHasNoRoute(s: State, c: Conn, t: TaskId, o: Option<Req>, marks: seq<Mark>)
    requires IdOk(s, t, o, marks) && c < |s.links| && s.links[c].handler.Unrouted?
        && s.links[c].handler.status.task == t
    ensures t !in s.tasks
  {
    hide WiresOk, OthersSettled, RequestOk, AnswerOk;
    assert Unrouting(s.links, t);
  }

  /** The status in hand is dealt with: its waiter is answered. */
  lemma UnroutedKeepsId(s: State, c: Conn, t: TaskId, o: Option<Req>, marks: seq<Mark>)
    requires Inv(s) && IdOk(s, t, o, marks) && c < |s.links| && s.links[c].handler.Unrouted?
    ensures IdOk(GatewayStep(s, c), t, o, marks)
  {
    hide IdOk, Inv, EpochOk;
    var (l, st) := (s.links[c], s.links[c].handler.status);
    var x := if st.state.Finished? then Completed(c, st.state.chunkCount, st.state.byteCount) else Disconnected;
    InvGivesLinks(s);
    OwnersHaveIds(s, st.task);
    assert LinkSane(l);
    HandlerMovesId(s, c, Serving, t, o, marks);
    var s1 := SetHandler(s, c, Serving);
    if st.task == t && st.state.Finished? {
      UnroutingHasNoRoute(s, c, t, o, marks);
      EpochAt(s, c, t, o, marks);
      InHandIsHeard(l, t, MarkAt(marks, c), Mine(s.requests, o, c));
    }
    ResolveKeepsId(s1, st.task, x, t, o, marks);
    assert GatewayStep(s, c) == Resolve(s1, st.task, x);
  }

  lemma InHandIsHeard(l: Link, t: TaskId, m: Mark, mine: seq<Command>)
    requires EpochOk(l, t, m, mine) && l.handler.Unrouted? && l.handler.status.task == t
    requires l.handler.status.state.Finished?
    ensures var st := l.handler.status.state;
            HeardFinish(l.(handler := Serving), t, m.heard, st.chunkCount, st.byteCount)
  {
    hide Of, TrackerOk, ReportsOk;
    var st := l.handler.status.state;
    assert DealtWith(l.(handler := Serving), t, l.read - 1, st.chunkCount, st.byteCount);
  }

  lemma OrphanKeepsId(s: State, c: Conn, u: TaskId, t: TaskId, o: Option<Req>, marks: seq<Mark>)
    requires Inv(s) && IdOk(s, t, o, marks) && c < |s.links|
    ensures IdOk(OrphanStep(s, c, u), t, o, marks)
  {
    hide IdOk, Inv, EpochOk;
    InvGivesLinks(s);
    var h := s.links[c].handler;
    if h.Removing? && u in h.pending {
      assert LinkSane(s.links[c]);
      OwnersHaveIds(s, u);
      ResolveKeepsId(s, u, Disconnected, t, o, marks);
      HandlerMovesId(Resolve(s, u, Disconnected), c, Removing(h.pending - {u}, h.closing), t, o, marks);
    }
  }

  lemma UnregisterKeepsId(s: State, c: Conn, t: TaskId, o: Option<Req>, marks: seq<Mark>)
    requires Inv(s) && IdOk(s, t, o, marks) && c < |s.links|
    ensures IdOk(Unregistered(s, c), t, o, marks)
  {
    hide IdOk, Inv, EpochOk;
    InvGivesLinks(s);
    if s.links[c].handler.Serving? {
      var a := s.owners[c];
      assert LinkSane(s.links[c]);
      AgentRemovedKeeps(s, a, t, o, marks);
      var s1 := s.(agents := s.agents - {a});
      RoutesRemovedKeep(s1, DeviceRegistry.TasksWithout(s.tasks, a), t, o, marks);
      HandlerMovesId(s1.(tasks := DeviceRegistry.TasksWithout(s.tasks, a)), c,
                     Removing(DeviceRegistry.TasksOf(s.tasks, a), true), t, o, marks);
    }
  }

  /** What the current request has put on a connection keeps the order of its script. */
  lemma MineHasShape(s: State, c: Conn, t: TaskId, o: Option<Req>, marks: seq<Mark>)
    requires IdOk(s, t, o, marks)
    ensures Shape(Mine(s.requests, o, c))
  {
    IdGives(s, t, o, marks);
    if o.Some? {
      var req := s.requests[o.value];
      ScriptHasShape(c, req.sends, req.task, req.payload, req.size);
    }
  }

  lemma DeviceKeepsId(s: State, c: Conn, l: Link, t: TaskId, o: Option<Req>, marks: seq<Mark>)
    requires IdOk(s, t, o, marks) && c < |s.links|
    requires (exists x :: l == LinkTurn(s.links[c], x)) || l == LinkStop(s.links[c])
    ensures IdOk(s.(links := s.links[c := l]), t, o, marks)
  {
    hide IdOk, EpochOk, Shape, Handle, AbortAll;
    EpochAt(s, c, t, o, marks);
    if l == LinkStop(s.links[c]) {
      StopKeepsEpoch(s.links[c], t, MarkAt(marks, c), Mine(s.requests, o, c));
    } else {
      var x :| l == LinkTurn(s.links[c], x);
      MineHasShape(s, c, t, o, marks);
      TurnKeepsEpoch(s.links[c], x, t, MarkAt(marks, c), Mine(s.requests, o, c));
    }
    LinkMovesId(s, c, l, t, o, marks);
  }

  lemma CloseKeepsId(s: State, c: Conn, t: TaskId, o: Option<Req>, marks: seq<Mark>)
    requires IdOk(s, t, o, marks) && c < |s.links|
    ensures IdOk(s.(links := s.links[c := s.links[c].(open := false)]), t, o, marks)
  {
    hide IdOk, EpochOk;
    EpochAt(s, c, t, o, marks);
    CloseKeepsEpoch(s.links[c], t, MarkAt(marks, c), Mine(s.requests, o, c));
    LinkMovesId(s, c, s.links[c].(open := false), t, o, marks);
  }

  lemma FreshLinkOk(pending: set<TaskId>, t: TaskId)
    ensures EpochOk(Link(true, [], 0, IDLE, true, [], 0, Removing(pending, false), None), t, Mark(0, 0, None), [])
  {
    var l := Link(true, [], 0, IDLE, true, [], 0, Removing(pending, false), None);
    assert l.sent[..l.consumed] == [];
    assert Of(t, []) == [];
  }

  /** Nothing has been put on a connection that does not exist yet. */
  lemma NothingMine(req: Request, agents: map<AgentId, Conn>, owners: seq<AgentId>)
    requires RequestOk(req, agents, owners)
    ensures To(|owners|, req.sends) == []
  {
    hide PcOk, ScriptOf, Pieces;
    forall k | 0 <= k < |req.sends| ensures req.sends[k].conn != |owners| {
      assert Bounded(req.sends[k].conn, req.agent, agents, owners);
    }
    ToNone(|owners|, req.sends);
  }

  lemma ConnectKeepsWires(s: State, a: AgentId, t: TaskId, o: Option<Req>, marks: seq<Mark>)
    requires IdOk(s, t, o, marks) && |s.owners| == |s.links|
    ensures WiresOk(s.requests, Connected(s, a).links, t, o, marks)
  {
    hide EpochOk, RequestOk, To;
    var s' := Connected(s, a);
    var n := |s.links|;
    FreshLinkOk(s'.links[n].handler.pending, t);
    IdGives(s, t, o, marks);
    if o.Some? {
      NothingMine(s.requests[o.value], s.agents, s.owners);
    }
    assert Mine(s.requests, o, n) == [];
    assert EpochOk(s'.links[n], t, MarkAt(marks, n), Mine(s.requests, o, n));
    hide OwnOk, OthersSettled, Mine;
    forall c | 0 <= c < |s'.links| ensures EpochOk(s'.links[c], t, MarkAt(marks, c), Mine(s.requests, o, c)) {
      assert c < n ==> s'.links[c] == s.links[c];
    }
  }

  lemma ConnectKeepsId(s: State, a: AgentId, t: TaskId, o: Option<Req>, marks: seq<Mark>)
    requires IdOk(s, t, o, marks) && |s.owners| == |s.links|
    ensures IdOk(Connected(s, a), t, o, marks)
  {
    hide IdOk, RequestOk, WiresOk;
    var s' := Connected(s, a);
    ConnectKeepsWires(s, a, t, o, marks);
    IdGives(s, t, o, marks);
    if o.Some? {
      BoundsSurviveConnect(s.requests[o.value], s.agents, s.owners, a);
    }
    if Unrouting(s'.links, t) {
      var c :| 0 <= c < |s'.links| && s'.links[c].handler.Unrouted? && s'.links[c].handler.status.task == t;
      assert s'.links[c] == s.links[c];
    }
    forall c | 0 <= c < |s.links| ensures Later(s.links[c], s'.links[c]) {
      Same(s.links[c]);
    }
    hide Unrouting, Later;
    IdStays(s, s', t, o, marks);
  }

  // ---- Requests with another id ----

  lemma OtherPcMoves(s: State, q: Req, req: Request, t: TaskId, o: Option<Req>, marks: seq<Mark>)
    requires IdOk(s, t, o, marks) && q < |s.requests|
    requires s.requests[q].task != t && req.task != t
    ensures IdOk(s.(requests := s.requests[q := req]), t, o, marks)
  {
    hide IdOk, WiresOk, RequestOk, Later, Unrouting;
    var s' := s.(requests := s.requests[q := req]);
    IdGives(s, t, o, marks);
    WiresStay(s, s', t, o, marks);
    IdStays(s, s', t, o, marks);
  }

  lemma OtherTransmits(s: State, q: Req, c: Conn, cmd: Command, next: Pc, lost: Pc, t: TaskId, o: Option<Req>,
                       marks: seq<Mark>)
    requires IdOk(s, t, o, marks) && q < |s.requests| && c < |s.links|
    requires s.requests[q].task != t && cmd.task != t
    ensures IdOk(Transmit(s, q, c, cmd, next, lost), t, o, marks)
  {
    hide IdOk, EpochOk;
    var req := s.requests[q];
    if s.links[c].open {
      var req' := req.(pc := next, sends := req.sends + [Send(c, cmd)]);
      EpochAt(s, c, t, o, marks);
      EnqueueKeepsEpoch(s.links[c], cmd, t, MarkAt(marks, c), Mine(s.requests, o, c));
      assert Mine(s.requests, o, c) + [] == Mine(s.requests, o, c);
      LinkMovesId(s, c, s.links[c].(sent := s.links[c].sent + [cmd]), t, o, marks);
      OtherPcMoves(s.(links := s.links[c := s.links[c].(sent := s.links[c].sent + [cmd])]), q, req', t, o, marks);
    } else {
      OtherPcMoves(s, q, req.(pc := lost), t, o, marks);
    }
  }

  lemma OtherAdvances(s: State, q: Req, t: TaskId, o: Option<Req>, marks: seq<Mark>)
    requires Inv(s) && IdOk(s, t, o, marks) && q < |s.requests| && s.requests[q].task != t
    ensures IdOk(Advanced(s, q), t, o, marks)
  {
    hide IdOk, Inv, Transmit, Resolve, ScriptOf, Pieces;
    var req := s.requests[q];
    var u := req.task;
    match req.pc
    case Subscribed =>
    case Selected(c) =>
      if u in s.tasks {
        OtherPcMoves(s, q, req.(pc := StartFailed), t, o, marks);
      } else {
        RoutesRemovedKeep(s, s.tasks[u := req.agent], t, o, marks);
        OtherPcMoves(s.(tasks := s.tasks[u := req.agent]), q, req.(pc := Registered(c)), t, o, marks);
      }
    case Registered(c) =>
      if c < |s.links| { OtherTransmits(s, q, c, Start(u), Sending(0), StartLost, t, o, marks); }
    case StartLost =>
      RoutesRemovedKeep(s, s.tasks - {u}, t, o, marks);
      OtherPcMoves(s.(tasks := s.tasks - {u}), q, req.(pc := StartFailed), t, o, marks);
    case Sending(i) =>
      OtherPcMoves(s, q, req.(pc := if u in s.tasks then Found(i, s.tasks[u]) else Done(Rejected)), t, o, marks);
    case Found(i, a) =>
      OtherPcMoves(s, q, req.(pc := if a in s.agents then Ready(i, s.agents[a]) else Lost), t, o, marks);
    case Ready(i, c) =>
      if c < |s.links| && i <= ChunkCount(req) {
        ScriptNamesTask(req, i + 1);
        OtherTransmits(s, q, c, Script(req)[i + 1], if i < ChunkCount(req) then Sending(i + 1) else Waiting, Lost,
                       t, o, marks);
      }
    case Lost =>
      RoutesRemovedKeep(s, s.tasks - {u}, t, o, marks);
      OtherPcMoves(s.(tasks := s.tasks - {u}), q, req.(pc := LostRemoved), t, o, marks);
    case _ => OtherReturns(s, q, t, o, marks);
  }

  lemma OtherReturns(s: State, q: Req, t: TaskId, o: Option<Req>, marks: seq<Mark>)
    requires Inv(s) && IdOk(s, t, o, marks) && q < |s.requests| && s.requests[q].task != t
    requires var pc := s.requests[q].pc; pc.StartFailed? || pc.LostRemoved? || pc.Waiting? || pc.TimedOut? || pc.Done?
    ensures IdOk(Advanced(s, q), t, o, marks)
  {
    hide IdOk, Inv, Resolve, Pieces;
    var req := s.requests[q];
    match req.pc
    case LostRemoved =>
      OwnersHaveIds(s, req.task);
      ResolveKeepsId(s, req.task, Disconnected, t, o, marks);
      ResolveSpares(s, req.task, Disconnected);
      OtherPcMoves(Resolve(s, req.task, Disconnected), q, req.(pc := Done(Rejected)), t, o, marks);
    case Waiting =>
      OtherPcMoves(s, q, req.(pc := Done(Rejected)), t, o, marks);
      OtherPcMoves(s, q, req.(pc := Done(Accepted(req.agent, ChunkCount(req), |req.payload|))), t, o, marks);
    case Done(_) =>
    case _ =>
      WaiterDroppedKeeps(s, req.task, t, o, marks);
      OtherPcMoves(s.(waiters := s.waiters - {req.task}), q, req.(pc := Done(Rejected)), t, o, marks);
  }

  lemma ResolveSpares(s: State, u: TaskId, x: Outcomes)
    ensures Resolve(s, u, x).requests == s.requests && Resolve(s, u, x).links == s.links
    ensures Resolve(s, u, x).tasks == s.tasks && Resolve(s, u, x).agents == s.agents
    ensures Resolve(s, u, x).owners == s.owners
  {}

  // ---- The current request ----

  /** The current request moves on without sending. */
  lemma OwnPcMoves(s: State, r: Req, pc: Pc, agent: AgentId, t: TaskId, marks: seq<Mark>)
    requires IdOk(s, t, Some(r), marks)
    requires s.requests[r].agent == agent || s.requests[r].sends == []
    requires PcOk(s.requests[r].(pc := pc, agent := agent), s.agents, s.owners)
    requires t in s.tasks ==>
               s.tasks[t] == agent && (pc.Registered? || pc.StartLost? || s.requests[r].sends != [])
    ensures IdOk(s.(requests := s.requests[r := s.requests[r].(pc := pc, agent := agent)]), t, Some(r), marks)
  {
    hide PcOk, EpochOk, HeardFinish, Unrouting, Pieces, To;
    var req' := s.requests[r].(pc := pc, agent := agent);
    var s' := s.(requests := s.requests[r := req']);
    assert Script(req') == Script(s.requests[r]);
    hide ScriptOf;
    assert RequestOk(req', s.agents, s.owners);
    hide RequestOk;
    forall c | 0 <= c < |s'.links| ensures EpochOk(s'.links[c], t, MarkAt(marks, c), Mine(s'.requests, Some(r), c)) {
      assert Mine(s'.requests, Some(r), c) == Mine(s.requests, Some(r), c);
    }
  }

  lemma OwnSetPc(s: State, r: Req, pc: Pc, t: TaskId, marks: seq<Mark>)
    requires IdOk(s, t, Some(r), marks) && r < |s.requests|
    requires PcOk(s.requests[r].(pc := pc), s.agents, s.owners)
    requires t in s.tasks ==> pc.Registered? || pc.StartLost? || s.requests[r].sends != []
    ensures IdOk(SetPc(s, r, pc), t, Some(r), marks)
  {
    hide PcOk, WiresOk, RequestOk, AnswerOk, OthersSettled, Unrouting;
    assert t in s.tasks ==> s.tasks[t] == s.requests[r].agent;
    hide IdOk;
    OwnPcMoves(s, r, pc, s.requests[r].agent, t, marks);
  }

  lemma OwnIs(s: State, t: TaskId, r: Req, marks: seq<Mark>)
    requires IdOk(s, t, Some(r), marks)
    ensures OwnOk(s, t, r, marks) && OthersSettled(s.requests, t, Some(r))
    ensures |marks| <= |s.links|
  {}

  lemma SendKeepsWires(s: State, r: Req, c: Conn, cmd: Command, next: Pc, lost: Pc, t: TaskId, marks: seq<Mark>)
    requires IdOk(s, t, Some(r), marks) && r < |s.requests| && c < |s.links| && s.links[c].open && cmd.task == t
    ensures var s' := Transmit(s, r, c, cmd, next, lost); WiresOk(s'.requests, s'.links, t, Some(r), marks)
  {
    hide EpochOk, OwnOk, OthersSettled, To;
    var s' := Transmit(s, r, c, cmd, next, lost);
    EnqueueKeepsEpoch(s.links[c], cmd, t, MarkAt(marks, c), Mine(s.requests, Some(r), c));
    forall d | 0 <= d < |s'.links| ensures EpochOk(s'.links[d], t, MarkAt(marks, d), Mine(s'.requests, Some(r), d)) {
      ToSnoc(d, s.requests[r].sends, Send(c, cmd));
      assert To(d, s.requests[r].sends) + [] == To(d, s.requests[r].sends);
    }
  }

  lemma IdFrom(s: State, t: TaskId, r: Req, marks: seq<Mark>)
    requires OthersSettled(s.requests, t, Some(r)) && WiresOk(s.requests, s.links, t, Some(r), marks)
    requires OwnOk(s, t, r, marks)
    ensures IdOk(s, t, Some(r), marks)
  {}

  lemma SendKeepsOthers(s: State, r: Req, c: Conn, cmd: Command, next: Pc, lost: Pc, t: TaskId)
    requires r < |s.requests| && c < |s.links| && s.links[c].open && OthersSettled(s.requests, t, Some(r))
    ensures OthersSettled(Transmit(s, r, c, cmd, next, lost).requests, t, Some(r))
  {}

  /** Putting a command on a connection changes nothing the gateway has read. */
  lemma SendKeepsOwn(s: State, r: Req, c: Conn, cmd: Command, next: Pc, lost: Pc, t: TaskId, marks: seq<Mark>)
    requires OwnOk(s, t, r, marks) && c < |s.links| && s.links[c].open
    requires RequestOk(Transmit(s, r, c, cmd, next, lost).requests[r], s.agents, s.owners)
    ensures OwnOk(Transmit(s, r, c, cmd, next, lost), t, r, marks)
  {
    hide RequestOk, HeardFinish;
    var s' := Transmit(s, r, c, cmd, next, lost);
    if Unrouting(s'.links, t) {
      var d :| 0 <= d < |s'.links| && s'.links[d].handler.Unrouted? && s'.links[d].handler.status.task == t;
      assert s.links[d].handler == s'.links[d].handler;
    }
    hide Unrouting;
    if r in s.results && s.results[r].Completed? {
      var x := s.results[r];
      assert Later(s.links[x.conn], s'.links[x.conn]);
      HeardStays(s.links[x.conn], s'.links[x.conn], t, MarkAt(marks, x.conn).heard, x.chunkCount, x.byteCount);
    }
  }

  /** The current request sends the next command of its script. */
  lemma OwnSends(s: State, r: Req, c: Conn, next: Pc, lost: Pc, t: TaskId, marks: seq<Mark>)
    requires IdOk(s, t, Some(r), marks) && r < |s.requests| && c < |s.links| && s.links[c].open
    requires MaySend(s.requests[r], c, s.agents, s.owners) && |s.requests[r].sends| < |Script(s.requests[r])|
    requires var req := s.requests[r];
             PcOk(req.(pc := next, sends := req.sends + [Send(c, Script(req)[|req.sends|])]), s.agents, s.owners)
    ensures IdOk(Transmit(s, r, c, Script(s.requests[r])[|s.requests[r].sends|], next, lost), t, Some(r), marks)
  {
    OwnIs(s, t, r, marks);
    IdGives(s, t, Some(r), marks);
    var req := s.requests[r];
    assert req.task == t;
    hide *;
    var cmd := Script(req)[|req.sends|];
    SendKeepsRequest(req, c, next, s.agents, s.owners);
    ScriptNamesTask(req, |req.sends|);
    TransmittedIs(s, r, c, cmd, next, lost);
    SendKeepsWires(s, r, c, cmd, next, lost, t, marks);
    SendKeepsOthers(s, r, c, cmd, next, lost, t);
    SendKeepsOwn(s, r, c, cmd, next, lost, t, marks);
    IdFrom(Transmit(s, r, c, cmd, next, lost), t, r, marks);
  }

  lemma TransmittedIs(s: State, r: Req, c: Conn, cmd: Command, next: Pc, lost: Pc)
    requires r < |s.requests| && c < |s.links| && s.links[c].open
    ensures var (s', req) := (Transmit(s, r, c, cmd, next, lost), s.requests[r]);
            r < |s'.requests| && s'.requests[r] == req.(pc := next, sends := req.sends + [Send(c, cmd)])
  {}

  /** The route of an unsent request: none before it registers. */
  lemma UnsentHasNoRoute(s: State, r: Req, t: TaskId, marks: seq<Mark>)
    requires IdOk(s, t, Some(r), marks) && s.requests[r].sends == []
    requires !s.requests[r].pc.Registered? && !s.requests[r].pc.StartLost?
    ensures t !in s.tasks
  {
    hide WiresOk, OthersSettled, RequestOk, AnswerOk, Unrouting;
  }

  /** Nothing of an id is under way on any connection while its request has sent nothing. */
  lemma UnsentIsQuiet(s: State, r: Req, t: TaskId, marks: seq<Mark>)
    requires IdOk(s, t, Some(r), marks) && s.requests[r].sends == []
    ensures !Unrouting(s.links, t) && !(r in s.results && s.results[r].Completed?)
  {
    hide EpochOk, RequestOk, FinishedOk, HeardFinish;
    assert forall c :: Mine(s.requests, Some(r), c) == [];
    if Unrouting(s.links, t) {
      var c :| 0 <= c < |s.links| && s.links[c].handler.Unrouted? && s.links[c].handler.status.task == t;
      EpochAt(s, c, t, Some(r), marks);
      UnusedIsQuiet(s.links[c], t, MarkAt(marks, c));
    }
    if r in s.results && s.results[r].Completed? {
      var x := s.results[r];
      EpochAt(s, x.conn, t, Some(r), marks);
      NothingFinished(s.links[x.conn], t, MarkAt(marks, x.conn), x.chunkCount, x.byteCount);
    }
  }

  lemma NothingFinished(l: Link, t: TaskId, m: Mark, chunkCount: nat, byteCount: nat)
    requires EpochOk(l, t, m, [])
    ensures !HeardFinish(l, t, m.heard, chunkCount, byteCount)
  {
    hide EpochOk;
    if HeardFinish(l, t, m.heard, chunkCount, byteCount) {
      var i := FinishedIsQuiet(l, t, m, [], chunkCount, byteCount);
    }
  }

  /** The current request inserts its route. */
  lemma OwnRegisters(s: State, r: Req, t: TaskId, marks: seq<Mark>)
    requires IdOk(s, t, Some(r), marks) && s.requests[r].pc.Selected?
    ensures IdOk(Advanced(s, r), t, Some(r), marks)
  {
    IdGives(s, t, Some(r), marks);
    hide EpochOk, HeardFinish, Pieces, ScriptOf, To;
    assert s.requests[r].sends == [];
    UnsentHasNoRoute(s, r, t, marks);
    UnsentIsQuiet(s, r, t, marks);
    var c := s.requests[r].pc.conn;
    OwnSetPc(s, r, Registered(c), t, marks);
    hide RequestOk, Unrouting, WiresOk, OthersSettled, AnswerOk, Bounded;
    RouteInserted(SetPc(s, r, Registered(c)), r, t, marks);
  }

  lemma RouteInserted(s: State, r: Req, t: TaskId, marks: seq<Mark>)
    requires IdOk(s, t, Some(r), marks) && s.requests[r].pc.Registered?
    requires !Unrouting(s.links, t) && !(r in s.results && s.results[r].Completed?)
    ensures IdOk(s.(tasks := s.tasks[t := s.requests[r].agent]), t, Some(r), marks)
  {
    hide RequestOk, Unrouting, EpochOk, HeardFinish, Settled;
  }

  lemma OwnSendsStart(s: State, r: Req, t: TaskId, marks: seq<Mark>)
    requires IdOk(s, t, Some(r), marks) && s.requests[r].pc.Registered?
    ensures IdOk(Advanced(s, r), t, Some(r), marks)
  {
    IdGives(s, t, Some(r), marks);
    hide IdOk, Pieces, ScriptOf;
    var req := s.requests[r];
    var c := req.pc.conn;
    ScriptNamesTask(req, 0);
    if c < |s.links| {
      if s.links[c].open {
        OwnSends(s, r, c, Sending(0), StartLost, t, marks);
      } else {
        OwnSetPc(s, r, StartLost, t, marks);
      }
    }
  }

  lemma NextIsTransmitted(s: State, r: Req)
    requires r < |s.requests| && s.requests[r].pc.Ready? && s.requests[r].pc.i <= ChunkCount(s.requests[r])
    ensures var req := s.requests[r];
            var (i, c) := (req.pc.i, req.pc.conn);
            var next := if i < ChunkCount(req) then Sending(i + 1) else Waiting;
            && (c >= |s.links| ==> Advanced(s, r) == s)
            && (c < |s.links| ==> Advanced(s, r) == Transmit(s, r, c, Script(req)[i + 1], next, Lost))
            && (c < |s.links| && !s.links[c].open ==> Advanced(s, r) == SetPc(s, r, Lost))
  {
    hide ScriptOf, Pieces;
  }

  lemma AlwaysMayBeLost(req: Request, agents: map<AgentId, Conn>, owners: seq<AgentId>)
    ensures PcOk(req.(pc := Lost), agents, owners)
  {}

  lemma OwnSendsNext(s: State, r: Req, t: TaskId, marks: seq<Mark>)
    requires IdOk(s, t, Some(r), marks) && s.requests[r].pc.Ready?
    ensures IdOk(Advanced(s, r), t, Some(r), marks)
  {
    hide *;
    IdGives(s, t, Some(r), marks);
    var req := s.requests[r];
    var c := req.pc.conn;
    ReadyMaySend(req, s.agents, s.owners);
    NextIsTransmitted(s, r);
    if c < |s.links| {
      if s.links[c].open {
        OwnSends(s, r, c, if req.pc.i < ChunkCount(req) then Sending(req.pc.i + 1) else Waiting, Lost, t, marks);
      } else {
        AlwaysMayBeLost(req, s.agents, s.owners);
        OwnSetPc(s, r, Lost, t, marks);
      }
    }
  }

  /** The current request finds its agent, or that its route is gone. */
  lemma OwnFindsAgent(s: State, r: Req, t: TaskId, marks: seq<Mark>)
    requires IdOk(s, t, Some(r), marks) && s.requests[r].pc.Sending?
    ensures IdOk(Advanced(s, r), t, Some(r), marks)
  {
    OwnIs(s, t, r, marks);
    hide IdOk, Pieces, ScriptOf, Unrouting, AnswerOk, Bounded;
    if t in s.tasks {
      OwnSetPc(s, r, Found(s.requests[r].pc.i, s.tasks[t]), t, marks);
    } else {
      OwnSetPc(s, r, Done(Rejected), t, marks);
    }
  }

  /** The agent's connection is at least as new as the one used before. */
  lemma FoundMaySend(req: Request, agents: map<AgentId, Conn>, owners: seq<AgentId>)
    requires RequestOk(req, agents, owners) && AgentsOk(agents, owners) && req.pc.Found? && req.pc.agent in agents
    ensures PcOk(req.(pc := Ready(req.pc.i, agents[req.pc.agent])), agents, owners)
  {
    hide Pieces, ScriptOf;
    assert Bounded(req.sends[req.pc.i].conn, req.agent, agents, owners);
  }

  /** The current request finds its agent's connection, or that it is gone. */
  lemma OwnFindsConnection(s: State, r: Req, t: TaskId, marks: seq<Mark>)
    requires Inv(s) && IdOk(s, t, Some(r), marks) && s.requests[r].pc.Found?
    ensures IdOk(Advanced(s, r), t, Some(r), marks)
  {
    IdGives(s, t, Some(r), marks);
    InvGivesLinks(s);
    var (i, a) := (s.requests[r].pc.i, s.requests[r].pc.agent);
    assert s.requests[r].sends != [];
    hide IdOk, Inv, Pieces, ScriptOf, RequestOk, PcOk, AgentsOk;
    if a in s.agents {
      FoundMaySend(s.requests[r], s.agents, s.owners);
      OwnSetPc(s, r, Ready(i, s.agents[a]), t, marks);
    } else {
      AlwaysMayBeLost(s.requests[r], s.agents, s.owners);
      OwnSetPc(s, r, Lost, t, marks);
    }
  }

  /** A route or a waiter goes first, then the request moves on. */
  lemma OwnGivesUp(s: State, r: Req, t: TaskId, marks: seq<Mark>)
    requires Inv(s) && IdOk(s, t, Some(r), marks)
    requires var pc := s.requests[r].pc;
             pc.StartLost? || pc.StartFailed? || pc.Lost? || pc.LostRemoved? || pc.TimedOut?
    ensures IdOk(Advanced(s, r), t, Some(r), marks)
  {
    IdGives(s, t, Some(r), marks);
    hide IdOk, Inv, Pieces, ScriptOf, Resolve;
    match s.requests[r].pc
    case StartLost =>
      RoutesRemovedKeep(s, s.tasks - {t}, t, Some(r), marks);
      OwnSetPc(s.(tasks := s.tasks - {t}), r, StartFailed, t, marks);
    case StartFailed =>
      UnsentHasNoRoute(s, r, t, marks);
      WaiterDroppedKeeps(s, t, t, Some(r), marks);
      OwnSetPc(s.(waiters := s.waiters - {t}), r, Done(Rejected), t, marks);
    case Lost =>
      RoutesRemovedKeep(s, s.tasks - {t}, t, Some(r), marks);
      OwnSetPc(s.(tasks := s.tasks - {t}), r, LostRemoved, t, marks);
    case LostRemoved => OwnResolves(s, r, t, marks);
    case TimedOut =>
      WaiterDroppedKeeps(s, t, t, Some(r), marks);
      OwnSetPc(s.(waiters := s.waiters - {t}), r, Done(Rejected), t, marks);
    case _ =>
  }

  lemma OwnResolves(s: State, r: Req, t: TaskId, marks: seq<Mark>)
    requires Inv(s) && IdOk(s, t, Some(r), marks) && s.requests[r].pc.LostRemoved?
    ensures IdOk(Advanced(s, r), t, Some(r), marks)
  {
    hide *;
    IdGives(s, t, Some(r), marks);
    OwnersHaveIds(s, t);
    ResolveKeepsId(s, t, Disconnected, t, Some(r), marks);
    ResolveSpares(s, t, Disconnected);
    LostReturns(s, r);
    OwnReturns(Resolve(s, t, Disconnected), r, t, marks);
  }

  lemma LostReturns(s: State, r: Req)
    requires r < |s.requests| && s.requests[r].pc.LostRemoved?
    requires Resolve(s, s.requests[r].task, Disconnected).requests == s.requests
    ensures Advanced(s, r) == SetPc(Resolve(s, s.requests[r].task, Disconnected), r, Done(Rejected))
  {}

  lemma OwnReturns(s: State, r: Req, t: TaskId, marks: seq<Mark>)
    requires IdOk(s, t, Some(r), marks) && s.requests[r].pc.LostRemoved?
    ensures IdOk(SetPc(s, r, Done(Rejected)), t, Some(r), marks)
  {
    IdGives(s, t, Some(r), marks);
    OwnIs(s, t, r, marks);
    hide IdOk, Pieces, ScriptOf;
    OwnSetPc(s, r, Done(Rejected), t, marks);
  }

  /** The current request gets its answer, or learns that its waiter is gone. */
  lemma OwnReceives(s: State, r: Req, t: TaskId, marks: seq<Mark>)
    requires IdOk(s, t, Some(r), marks) && s.requests[r].pc.Waiting?
    ensures IdOk(Advanced(s, r), t, Some(r), marks)
  {
    IdGives(s, t, Some(r), marks);
    hide IdOk, Pieces, ScriptOf;
    var req := s.requests[r];
    OwnSetPc(s, r, Done(Rejected), t, marks);
    OwnSetPc(s, r, Done(Accepted(req.agent, ChunkCount(req), |req.payload|)), t, marks);
  }

  lemma OwnAdvances(s: State, r: Req, t: TaskId, marks: seq<Mark>)
    requires Inv(s) && IdOk(s, t, Some(r), marks)
    ensures IdOk(Advanced(s, r), t, Some(r), marks)
  {
    IdGives(s, t, Some(r), marks);
    hide IdOk, Inv, RequestOk;
    var pc := s.requests[r].pc;
    if pc.Selected? {
      OwnRegisters(s, r, t, marks);
    } else if pc.Registered? {
      OwnSendsStart(s, r, t, marks);
    } else if pc.Ready? {
      OwnSendsNext(s, r, t, marks);
    } else if pc.Sending? {
      OwnFindsAgent(s, r, t, marks);
    } else if pc.Found? {
      OwnFindsConnection(s, r, t, marks);
    } else if pc.Waiting? {
      OwnReceives(s, r, t, marks);
    } else if !pc.Subscribed? && !pc.Done? {
      hide Advanced;
      OwnGivesUp(s, r, t, marks);
    }
  }

  lemma OwnSelects(s: State, r: Req, choice: Option<AgentId>, t: TaskId, marks: seq<Mark>)
    requires Inv(s) && IdOk(s, t, Some(r), marks)
    ensures IdOk(SelectedAgent(s, r, choice), t, Some(r), marks)
  {
    IdGives(s, t, Some(r), marks);
    InvGivesLinks(s);
    hide IdOk, Inv, Pieces, ScriptOf;
    if s.requests[r].pc.Subscribed? {
      UnsentHasNoRoute(s, r, t, marks);
      if choice.None? {
        OwnSetPc(s, r, StartFailed, t, marks);
      } else if choice.value in s.agents {
        OwnPcMoves(s, r, Selected(s.agents[choice.value]), choice.value, t, marks);
      }
    }
  }

  // ---- Every event ----

  /** An earlier request with this id has returned; it does not move any more. */
  lemma SettledStays(s: State, q: Req, t: TaskId, o: Option<Req>, marks: seq<Mark>)
    requires IdOk(s, t, o, marks) && q < |s.requests| && s.requests[q].task == t && o != Some(q)
    ensures s.requests[q].pc.Done? && Advanced(s, q) == s
  {
    hide WiresOk, OwnOk, ScriptOf, Pieces;
    assert Settled(s.requests[q]);
  }

  lemma AdvanceKeepsId(s: State, q: Req, t: TaskId, o: Option<Req>, marks: seq<Mark>)
    requires Inv(s) && IdOk(s, t, o, marks) && q < |s.requests|
    ensures IdOk(Advanced(s, q), t, o, marks)
  {
    hide *;
    if s.requests[q].task != t {
      OtherAdvances(s, q, t, o, marks);
    } else if o == Some(q) {
      OwnAdvances(s, q, t, marks);
    } else {
      SettledStays(s, q, t, o, marks);
    }
  }

  lemma SelectKeepsId(s: State, q: Req, choice: Option<AgentId>, t: TaskId, o: Option<Req>, marks: seq<Mark>)
    requires Inv(s) && IdOk(s, t, o, marks) && q < |s.requests|
    ensures IdOk(SelectedAgent(s, q, choice), t, o, marks)
  {
    hide IdOk, Inv;
    if s.requests[q].task == t && o == Some(q) {
      OwnSelects(s, q, choice, t, marks);
    } else if s.requests[q].task == t {
      SettledStays(s, q, t, o, marks);
    } else {
      var req := s.requests[q];
      OtherPcMoves(s, q, req.(pc := StartFailed), t, o, marks);
      if choice.Some? && choice.value in s.agents {
        OtherPcMoves(s, q, req.(pc := Selected(s.agents[choice.value]), agent := choice.value), t, o, marks);
      }
    }
  }

  lemma TimeoutKeepsId(s: State, q: Req, t: TaskId, o: Option<Req>, marks: seq<Mark>)
    requires IdOk(s, t, o, marks) && q < |s.requests| && s.requests[q].pc.Waiting?
    ensures IdOk(SetPc(s, q, TimedOut), t, o, marks)
  {
    IdGives(s, t, o, marks);
    hide IdOk, Pieces, ScriptOf;
    if s.requests[q].task != t {
      OtherPcMoves(s, q, s.requests[q].(pc := TimedOut), t, o, marks);
    } else if o == Some(q) {
      OwnSetPc(s, q, TimedOut, t, marks);
    } else {
      SettledStays(s, q, t, o, marks);
    }
  }

  /** A submission with another id, or one without audio. */
  lemma OtherSubmits(s: State, e: Event, t: TaskId, o: Option<Req>, marks: seq<Mark>)
    requires IdOk(s, t, o, marks) && e.Submit? && !IsAudioOf(e, t)
    ensures IdOk(Submitted(s, e.task, e.audio64, e.size), t, o, marks)
  {
    hide IdOk, WiresOk, RequestOk, Later, Unrouting, Base64.Decode;
    var s' := Submitted(s, e.task, e.audio64, e.size);
    IdGives(s, t, o, marks);
    WiresStay(s, s', t, o, marks);
    IdStays(s, s', t, o, marks);
  }

  /** Every event but a submission of audio with this id. */
  lemma EventKeepsId(s: State, e: Event, t: TaskId, o: Option<Req>, marks: seq<Mark>)
    requires Inv(s) && IdOk(s, t, o, marks) && !IsAudioOf(e, t)
    ensures IdOk(Next(s, e), t, o, marks)
  {
    hide Inv, IdOk, Advanced, SelectedAgent, Submitted, Connected, Unregistered, GatewayStep, OrphanStep;
    hide LinkTurn, LinkStop, IsAudioOf;
    InvGivesLinks(s);
    hide LinksSane, AgentsOk;
    match e
    case Submit(task, audio64, size) => OtherSubmits(s, e, t, o, marks);
    case Select(r, choice) => if r < |s.requests| { SelectKeepsId(s, r, choice, t, o, marks); }
    case Advance(r) => if r < |s.requests| { AdvanceKeepsId(s, r, t, o, marks); }
    case Timeout(r) => if r < |s.requests| && s.requests[r].pc.Waiting? { TimeoutKeepsId(s, r, t, o, marks); }
    case Connect(a) => ConnectKeepsId(s, a, t, o, marks);
    case Unregister(c) => if c < |s.links| && c < |s.owners| { UnregisterKeepsId(s, c, t, o, marks); }
    case Drop(c) => if c < |s.links| && s.links[c].handler.Serving? { DropKeepsId(s, c, t, o, marks); }
    case CloseWriter(c) => if c < |s.links| { CloseKeepsId(s, c, t, o, marks); }
    case Gateway(c) => if c < |s.links| { GatewayKeepsId(s, c, t, o, marks); }
    case Orphan(c, u) => if c < |s.links| { OrphanKeepsId(s, c, u, t, o, marks); }
    case DeviceTurn(c, x) => if c < |s.links| { DeviceKeepsId(s, c, LinkTurn(s.links[c], x), t, o, marks); }
    case DeviceStop(c) => if c < |s.links| { DeviceKeepsId(s, c, LinkStop(s.links[c]), t, o, marks); }
  }

  lemma DropKeepsId(s: State, c: Conn, t: TaskId, o: Option<Req>, marks: seq<Mark>)
    requires Inv(s) && IdOk(s, t, o, marks) && c < |s.links| && s.links[c].handler.Serving?
    ensures IdOk(SetHandler(s, c, Closed), t, o, marks)
  {
    hide Inv, IdOk;
    InvGivesLinks(s);
    assert LinkSane(s.links[c]);
    HandlerMovesId(s, c, Closed, t, o, marks);
  }

  // ---- The next request with the id ----

  /** Every request with this id is settled. */
  ghost predicate AllSettled(requests: seq<Request>, t: TaskId) {
    forall q :: 0 <= q < |requests| && requests[q].task == t ==> Settled(requests[q])
  }

  /** The connections when a request is submitted. */
  function MarksOf(links: seq<Link>, t: TaskId): seq<Mark> {
    seq(|links|, c requires 0 <= c < |links| => MarkOf(links[c], t))
  }

  /** Nothing of the id is under way anywhere. */
  ghost predicate AllQuiet(s: State, t: TaskId) {
    && t !in s.tasks && AllSettled(s.requests, t)
    && forall c :: 0 <= c < |s.links| ==> LinkSane(s.links[c]) && Quiet(s.links[c], t)
  }

  /** A submission finds everything quiet, and its request becomes the current one. */
  lemma SubmitStartsId(s: State, e: Event, t: TaskId)
    requires AllQuiet(s, t) && IsAudioOf(e, t) && ResultsKnown(s.requests, s.results)
    ensures IdOk(Next(s, e), t, Some(|s.requests|), MarksOf(s.links, t))
  {
    hide Base64.Decode, EpochOk, Pieces, ScriptOf, Quiet, LinkSane, HeardFinish;
    var s' := Next(s, e);
    var marks := MarksOf(s.links, t);
    var r := |s.requests|;
    forall c | 0 <= c < |s.links| ensures EpochOk(s.links[c], t, MarkAt(marks, c), Mine(s'.requests, Some(r), c)) {
      QuietStartsEpoch(s.links[c], t);
    }
    assert RequestOk(s'.requests[r], s'.agents, s'.owners);
  }

  /** The commands at the two ends of a request's sends pin every command to one connection. */
  lemma EndsPinConnection(req: Request, c: Conn, pre: seq<Command>, agents: map<AgentId, Conn>, owners: seq<AgentId>)
    requires RequestOk(req, agents, owners)
    requires pre <= To(c, req.sends) && |pre| >= 2 && pre[0].Start? && pre[|pre| - 1].Finish?
    ensures pre == Script(req) && c < |owners| && owners[c] == req.agent
    ensures forall k :: 0 <= k < |req.sends| ==> req.sends[k].conn == c
  {
    assert pre[0] in To(c, req.sends) && pre[|pre| - 1] in To(c, req.sends) by {
      assert To(c, req.sends)[0] == pre[0] && To(c, req.sends)[|pre| - 1] == pre[|pre| - 1];
    }
    var i := ToComesFromSend(c, req.sends, pre[0]);
    var j := ToComesFromSend(c, req.sends, pre[|pre| - 1]);
    assert i == 0 && j == |Script(req)| - 1;
    assert |req.sends| == |Script(req)|;
    forall k | 0 <= k < |req.sends| ensures req.sends[k].conn == c {
      assert k == 0 || req.sends[0].conn <= req.sends[k].conn;
      assert k == j || req.sends[k].conn <= req.sends[j].conn;
    }
    ToAll(c, req.sends);
    assert Script(req)[|pre| - 1].Finish?;
    assert Bounded(req.sends[0].conn, req.agent, agents, owners);
  }

  lemma {:induction false} ToComesFromSend(c: Conn, sends: seq<Send>, x: Command) returns (k: nat)
    requires x in To(c, sends)
    ensures k < |sends| && sends[k] == Send(c, x)
  {
    var last := sends[|sends| - 1];
    var init := sends[..|sends| - 1];
    if last == Send(c, x) {
      k := |sends| - 1;
    } else {
      k := ToComesFromSend(c, init, x);
      assert init[k] == sends[k];
    }
  }

  /**
   An accepted request: one connection of its agent carried the whole script and
   reported it finished since the submission; everything else is as it was.
   */
  ghost predicate Delivered(s: State, t: TaskId, r: Req, marks: seq<Mark>, c: Conn)
    requires r < |s.requests| && c < |s.links| && |s.owners| == |s.links|
  {
    var req := s.requests[r];
    && s.owners[c] == req.agent
    && (exists i :: MarkAt(marks, c).heard <= i < |s.links[c].statuses| && ScriptFinished(s.links[c], t, i, req))
    && forall d :: 0 <= d < |s.links| && d != c ==>
         PlayerAt(s.links[d].tracker, t) == MarkAt(marks, d).player
  }

  ghost predicate ScriptFinished(l: Link, t: TaskId, i: nat, req: Request)
    requires i < |l.statuses|
  {
    l.statuses[i].task == t && l.statuses[i].state.Finished? && FinishedOk(l.tracker, l.statuses[i], Script(req))
  }

  lemma AcceptedIsAnswered(s: State, t: TaskId, r: Req, marks: seq<Mark>)
    requires Inv(s) && IdOk(s, t, Some(r), marks) && s.requests[r].pc.Done? && s.requests[r].pc.reply.Accepted?
    ensures r in s.results && s.results[r].Completed? && AnswerOk(s, t, r, marks) && t !in s.tasks
    ensures |s.owners| == |s.links| && RequestOk(s.requests[r], s.agents, s.owners)
  {
    hide WaitersOk, LinksSane, OnceOk, AgentsOk, WiresOk, HeardFinish, PcOk;
  }

  /** The Finished report of an accepted request pins its whole script to one connection, which is quiet. */
  lemma AcceptedPins(s: State, t: TaskId, r: Req, marks: seq<Mark>) returns (c: Conn)
    requires Inv(s) && IdOk(s, t, Some(r), marks) && s.requests[r].pc.Done? && s.requests[r].pc.reply.Accepted?
    ensures c < |s.links| && |s.owners| == |s.links| && s.owners[c] == s.requests[r].agent
    ensures LinkSane(s.links[c]) && Quiet(s.links[c], t)
    ensures exists i :: MarkAt(marks, c).heard <= i < |s.links[c].statuses|
                        && ScriptFinished(s.links[c], t, i, s.requests[r])
    ensures forall k :: 0 <= k < |s.requests[r].sends| ==> s.requests[r].sends[k].conn == c
  {
    AcceptedIsAnswered(s, t, r, marks);
    hide Inv, IdOk, RequestOk, HeardFinish, To, ScriptOf, Pieces, Shape;
    var x := s.results[r];
    c := x.conn;
    var (l, m, mine) := (s.links[c], MarkAt(marks, c), Mine(s.requests, Some(r), c));
    EpochAt(s, c, t, Some(r), marks);
    MineHasShape(s, c, t, Some(r), marks);
    var i := FinishedIsQuiet(l, t, m, mine, x.chunkCount, x.byteCount);
    hide Heard;
    assert mine[..|mine| - 1][0] == mine[0];
    EndsPinConnection(s.requests[r], c, mine, s.agents, s.owners);
    assert ScriptFinished(l, t, i, s.requests[r]);
    assert LinkSane(l);
  }

  /** A connection the current request put nothing on. */
  lemma UnusedAt(s: State, t: TaskId, o: Option<Req>, marks: seq<Mark>, d: Conn)
    requires IdOk(s, t, o, marks) && d < |s.links|
    requires o.None? || forall k :: 0 <= k < |s.requests[o.value].sends| ==> s.requests[o.value].sends[k].conn != d
    ensures LinkSane(s.links[d]) && Quiet(s.links[d], t)
    ensures PlayerAt(s.links[d].tracker, t) == MarkAt(marks, d).player
  {
    EpochAt(s, d, t, o, marks);
    if o.Some? {
      ToNone(d, s.requests[o.value].sends);
    }
    UnusedIsQuiet(s.links[d], t, MarkAt(marks, d));
    hide Quiet, IdOk;
  }

  lemma AcceptedIsDelivered(s: State, t: TaskId, r: Req, marks: seq<Mark>) returns (c: Conn)
    requires Inv(s) && IdOk(s, t, Some(r), marks) && s.requests[r].pc.Done? && s.requests[r].pc.reply.Accepted?
    ensures c < |s.links| && |s.owners| == |s.links| && Delivered(s, t, r, marks, c)
    ensures forall d :: 0 <= d < |s.links| ==> LinkSane(s.links[d]) && Quiet(s.links[d], t)
  {
    hide Inv, IdOk, ScriptFinished, Quiet, LinkSane;
    IdGives(s, t, Some(r), marks);
    c := AcceptedPins(s, t, r, marks);
    forall d | 0 <= d < |s.links| && d != c
      ensures LinkSane(s.links[d]) && Quiet(s.links[d], t)
      ensures PlayerAt(s.links[d].tracker, t) == MarkAt(marks, d).player
    {
      UnusedAt(s, t, Some(r), marks, d);
    }
  }

  /** Once the current request is settled, nothing of its id is under way. */
  lemma SettledIsQuiet(s: State, t: TaskId, o: Option<Req>, marks: seq<Mark>)
    requires Inv(s) && IdOk(s, t, o, marks) && AllSettled(s.requests, t)
    ensures AllQuiet(s, t)
  {
    hide Inv, Quiet, LinkSane, Delivered, WiresOk, OthersSettled, OwnOk, RequestOk;
    IdGives(s, t, o, marks);
    if o.Some? && s.requests[o.value].pc.reply.Accepted? {
      hide IdOk;
      AcceptedIsAnswered(s, t, o.value, marks);
      var c := AcceptedIsDelivered(s, t, o.value, marks);
    } else {
      if o.Some? {
        UnsentHasNoRoute(s, o.value, t, marks);
      }
      hide IdOk;
      forall d | 0 <= d < |s.links| ensures LinkSane(s.links[d]) && Quiet(s.links[d], t) {
        UnusedAt(s, t, o, marks, d);
      }
    }
  }

  // ---- Every run ----

  /**
   An id is used in order: whenever audio is submitted with it, every earlier
   request with it has been accepted, or rejected before it sent anything.
   */
  ghost predicate Orderly(events: seq<Event>, t: TaskId) {
    forall i :: 0 <= i < |events| && IsAudioOf(events[i], t) ==> AllSettled(Run(events[..i]).requests, t)
  }

  /** The request of the last submission of audio with this id. */
  function Current(events: seq<Event>, t: TaskId): Option<Req> {
    if events == [] then None
    else
      var init := events[..|events| - 1];
      if IsAudioOf(events[|events| - 1], t) then Some(|Run(init).requests|) else Current(init, t)
  }

  /** The connections when it was submitted. */
  function MarksAt(events: seq<Event>, t: TaskId): seq<Mark> {
    if events == [] then []
    else
      var init := events[..|events| - 1];
      if IsAudioOf(events[|events| - 1], t) then MarksOf(Run(init).links, t) else MarksAt(init, t)
  }

  lemma OrderlyPrefix(events: seq<Event>, t: TaskId, n: nat)
    requires Orderly(events, t) && n <= |events|
    ensures Orderly(events[..n], t)
  {
    hide IsAudioOf, AllSettled, Run;
    forall i | 0 <= i < n && IsAudioOf(events[..n][i], t) ensures AllSettled(Run(events[..n][..i]).requests, t) {
      assert events[..n][..i] == events[..i];
      assert IsAudioOf(events[i], t);
    }
  }

  lemma IdOkAtFirst(t: TaskId)
    ensures IdOk(INITIAL, t, None, [])
  {}

  /** Whatever the other ids do, an id that is used in order stays in order. */
  lemma {:induction false} OrderlyIdsStayOk(events: seq<Event>, t: TaskId)
    requires Orderly(events, t)
    ensures IdOk(Run(events), t, Current(events, t), MarksAt(events, t))
  {
    hide Next, IdOk, Inv, IsAudioOf, AllSettled, MarksOf;
    if events == [] {
      IdOkAtFirst(t);
    } else {
      var (init, e) := (events[..|events| - 1], events[|events| - 1]);
      OrderlyPrefix(events, t, |init|);
      InvariantOfRuns(init);
      OrderlyIdsStayOk(init, t);
      if IsAudioOf(e, t) {
        SettledIsQuiet(Run(init), t, Current(init, t), MarksAt(init, t));
        ResultsAreKnown(Run(init));
        SubmitStartsId(Run(init), e, t);
      } else {
        EventKeepsId(Run(init), e, t, Current(init, t), MarksAt(init, t));
      }
    }
  }

  lemma ResultsAreKnown(s: State)
    requires Inv(s)
    ensures ResultsKnown(s.requests, s.results)
  {}
}
