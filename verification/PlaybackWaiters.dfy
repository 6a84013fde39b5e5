/**
 What every run of the play_audio protocol keeps, whatever task ids its clients
 use: a waiter is answered at most once, and none is left behind.
 */
module PlaybackWaiters {
  import opened Common
  import opened DeviceAgent
  import opened Playback
  import Base64
  import DeviceRegistry

  // ---- The invariant ----

  predicate Holds(h: Handler) { h.Looking? || h.Routed? || h.Unrouted? }

  /**
   The read positions are within the logs, the status in hand is the last one read,
   and a device that has handled nothing yet has started and reported nothing.
   */
  ghost predicate LinkSane(l: Link) {
    && l.consumed <= |l.sent| && l.read <= |l.statuses|
    && (l.greeted.None? || l.consumed <= l.greeted.value ==> l.tracker.active == map[] && l.statuses == [])
    && (l.handler.Removing? && !l.handler.closing ==> l.greeted.None?)
    && (Holds(l.handler) ==>
          && l.read >= 1 && l.handler.status == l.statuses[l.read - 1]
          && (!l.handler.Looking? ==> Terminal(l.handler.status.state)))
  }

  /** A gateway task that took the route of `t` and has not answered its waiter yet. */
  predicate Owes(h: Handler, t: TaskId) {
    (h.Removing? && t in h.pending) || (h.Unrouted? && h.status.task == t)
  }

  ghost predicate SomeoneOwes(links: seq<Link>, t: TaskId) {
    exists c :: 0 <= c < |links| && Owes(links[c].handler, t)
  }

  /** A request at one of these points removes or answers the waiter of its id before it returns. */
  predicate Clearing(pc: Pc) {
    pc.StartLost? || pc.StartFailed? || pc.Lost? || pc.LostRemoved? || pc.TimedOut?
  }

  ghost predicate SomeoneClears(requests: seq<Request>, t: TaskId) {
    exists q :: 0 <= q < |requests| && requests[q].task == t && Clearing(requests[q].pc)
  }

  /** The request itself will still see to its waiter, or its route leads whoever removes it there. */
  predicate OwnerCares(pc: Pc, routed: bool) {
    || pc.Subscribed? || pc.Selected? || pc.Waiting?
    || (routed && (pc.Registered? || pc.Sending? || pc.Found? || pc.Ready?))
  }

  ghost predicate WaiterOk(s: State, t: TaskId)
    requires t in s.waiters
  {
    var r := s.waiters[t];
    && r < |s.requests| && s.requests[r].task == t && r !in s.results
    && (OwnerCares(s.requests[r].pc, t in s.tasks) || SomeoneClears(s.requests, t) || SomeoneOwes(s.links, t))
  }

  ghost predicate WaitersOk(s: State) {
    forall t :: t in s.waiters ==> WaiterOk(s, t)
  }

  ghost predicate LinksSane(links: seq<Link>) {
    forall c :: 0 <= c < |links| ==> LinkSane(links[c])
  }

  ghost predicate AgentsOk(agents: map<AgentId, Conn>, owners: seq<AgentId>) {
    forall a :: a in agents ==> agents[a] < |owners| && owners[agents[a]] == a
  }

  ghost predicate OnceOk(results: map<Req, Outcomes>, resolutions: multiset<Req>) {
    forall r :: resolutions[r] == if r in results then 1 else 0
  }

  function ReplyTo(req: Request): Reply { Accepted(req.agent, ChunkCount(req), |req.payload|) }

  /** Only answered requests are accepted, and the reply names their agent and counts. */
  ghost predicate RepliesOk(requests: seq<Request>, results: map<Req, Outcomes>) {
    forall r :: 0 <= r < |requests| && requests[r].pc.Done? && requests[r].pc.reply.Accepted? ==>
      && r in results && results[r].Completed?
      && requests[r].pc.reply == ReplyTo(requests[r])
  }

  ghost predicate ResultsKnown(requests: seq<Request>, results: map<Req, Outcomes>) {
    forall r :: r in results ==> r < |requests|
  }

  ghost predicate Inv(s: State) {
    && |s.owners| == |s.links|
    && AgentsOk(s.agents, s.owners)
    && LinksSane(s.links)
    && WaitersOk(s)
    && OnceOk(s.results, s.resolutions)
    && ResultsKnown(s.requests, s.results)
    && RepliesOk(s.requests, s.results)
  }

  // ---- Connections move on ----

  /** Connections change, and no gateway task forgets a waiter it owes an answer. */
  lemma LinksMove(s: State, links: seq<Link>)
    requires Inv(s) && |links| == |s.links| && LinksSane(links)
    requires forall t, c :: t in s.waiters && 0 <= c < |links| && Owes(s.links[c].handler, t) ==>
               Owes(links[c].handler, t)
    ensures Inv(s.(links := links))
  {
    hide SomeoneClears, LinkSane, Owes;
    var s' := s.(links := links);
    forall t | t in s'.waiters ensures WaiterOk(s', t) {
      assert WaiterOk(s, t);
      if SomeoneOwes(s.links, t) {
        var c :| 0 <= c < |s.links| && Owes(s.links[c].handler, t);
        assert Owes(links[c].handler, t);
      }
    }
  }

  lemma LinkMoves(s: State, c: Conn, l: Link)
    requires Inv(s) && c < |s.links| && LinkSane(l)
    requires forall t :: t in s.waiters && Owes(s.links[c].handler, t) ==> Owes(l.handler, t)
    ensures Inv(s.(links := s.links[c := l]))
  {
    hide Inv, LinkSane, Owes;
    assert LinksSane(s.links) by { InvGivesLinks(s); }
    LinksMove(s, s.links[c := l]);
  }

  lemma InvGivesLinks(s: State)
    requires Inv(s)
    ensures |s.owners| == |s.links| && AgentsOk(s.agents, s.owners) && LinksSane(s.links)
  {}

  /** Routes are removed by whoever still owes the waiters concerned an answer. */
  lemma RoutesRemoved(s: State, tasks: map<TaskId, AgentId>)
    requires Inv(s)
    requires forall t :: t in s.tasks && t !in tasks ==> SomeoneOwes(s.links, t) || SomeoneClears(s.requests, t)
    ensures Inv(s.(tasks := tasks))
  {
    hide SomeoneOwes, SomeoneClears, LinkSane;
    var s' := s.(tasks := tasks);
    forall t | t in s'.waiters ensures WaiterOk(s', t) {
      assert WaiterOk(s, t);
    }
  }

  lemma ResolveKeepsWaiters(s: State, t: TaskId, o: Outcomes)
    requires WaitersOk(s)
    ensures WaitersOk(Resolve(s, t, o))
  {
    hide SomeoneOwes, SomeoneClears, OwnerCares;
    var s' := Resolve(s, t, o);
    if t in s.waiters {
      assert WaiterOk(s, t);
    }
    forall u | u in s'.waiters ensures WaiterOk(s', u) {
      assert WaiterOk(s, u);
    }
  }

  lemma ResolveKeepsAnswers(s: State, t: TaskId, o: Outcomes)
    requires OnceOk(s.results, s.resolutions) && RepliesOk(s.requests, s.results) && ResultsKnown(s.requests, s.results)
    requires t in s.waiters ==> WaiterOk(s, t)
    ensures var s' := Resolve(s, t, o);
            && OnceOk(s'.results, s'.resolutions) && RepliesOk(s'.requests, s'.results)
            && ResultsKnown(s'.requests, s'.results) && t !in s'.waiters
  {
    hide SomeoneOwes, SomeoneClears, OwnerCares, ReplyTo;
  }

  /** `resolve_task_waiter` answers a request that had no answer. */
  lemma ResolveKeeps(s: State, t: TaskId, o: Outcomes)
    requires Inv(s)
    ensures Inv(Resolve(s, t, o)) && t !in Resolve(s, t, o).waiters
  {
    ResolveKeepsWaiters(s, t, o);
    assert t in s.waiters ==> WaiterOk(s, t);
    ResolveKeepsAnswers(s, t, o);
    hide WaiterOk, WaitersOk, OnceOk, RepliesOk, LinksSane, AgentsOk, ResultsKnown;
  }

  lemma WaiterDropped(s: State, t: TaskId)
    requires Inv(s)
    ensures Inv(s.(waiters := s.waiters - {t}))
  {
    hide SomeoneOwes, SomeoneClears, LinkSane;
    var s' := s.(waiters := s.waiters - {t});
    forall u | u in s'.waiters ensures WaiterOk(s', u) {
      assert WaiterOk(s, u);
    }
  }

  lemma ConnectKeeps(s: State, a: AgentId)
    requires Inv(s)
    ensures Inv(Connected(s, a))
  {
    hide SomeoneClears;
    var s' := Connected(s, a);
    forall t | t in s'.waiters ensures WaiterOk(s', t) {
      assert WaiterOk(s, t);
      if SomeoneOwes(s.links, t) {
        var c :| 0 <= c < |s.links| && Owes(s.links[c].handler, t);
        assert Owes(s'.links[c].handler, t);
      } else if t in s.tasks && t !in s'.tasks {
        assert Owes(s'.links[|s.links|].handler, t);
      }
    }
  }

  lemma AgentRemoved(s: State, a: AgentId)
    requires Inv(s)
    ensures Inv(s.(agents := s.agents - {a}))
  {
    hide SomeoneOwes, SomeoneClears, LinkSane;
    var s' := s.(agents := s.agents - {a});
    forall t | t in s'.waiters ensures WaiterOk(s', t) {
      assert WaiterOk(s, t);
    }
  }

  lemma UnregisterKeeps(s: State, c: Conn)
    requires Inv(s) && c < |s.links|
    ensures Inv(Unregistered(s, c))
  {
    hide Inv, SomeoneClears;
    InvGivesLinks(s);
    if s.links[c].handler.Serving? {
      var a := s.owners[c];
      var h := Removing(DeviceRegistry.TasksOf(s.tasks, a), true);
      AgentRemoved(s, a);
      var s0 := s.(agents := s.agents - {a});
      assert LinkSane(s0.links[c]);
      LinkMoves(s0, c, s.links[c].(handler := h));
      var s1 := SetHandler(s0, c, h);
      forall t | t in s1.tasks && t !in DeviceRegistry.TasksWithout(s.tasks, a) ensures SomeoneOwes(s1.links, t) {
        assert Owes(s1.links[c].handler, t);
      }
      RoutesRemoved(s1, DeviceRegistry.TasksWithout(s.tasks, a));
    }
  }

  lemma GatewayKeeps(s: State, c: Conn)
    requires Inv(s) && c < |s.links|
    ensures Inv(GatewayStep(s, c))
  {
    hide WaitersOk, OnceOk, RepliesOk, AgentsOk;
    var l := s.links[c];
    assert LinkSane(l);
    match l.handler
    case Removing(pending, closing) =>
      if pending == {} {
        LinkMoves(s, c, l.(handler := Closed));
        if !closing && l.open {
          LinkMoves(s, c, l.(handler := Serving, greeted := Some(|l.sent|)));
        }
      }
    case Serving =>
      if l.read < |l.statuses| {
        LinkMoves(s, c, l.(read := l.read + 1, handler := Looking(l.statuses[l.read])));
      }
    case Looking(st) =>
      LinkMoves(s, c, l.(handler := if st.task in s.tasks && Terminal(st.state) then Routed(st) else Serving));
    case Routed(st) =>
      RoutedKeeps(s, c);
    case Unrouted(st) =>
      UnroutedKeeps(s, c);
    case Closed =>
  }

  lemma RoutedKeeps(s: State, c: Conn)
    requires Inv(s) && c < |s.links| && s.links[c].handler.Routed?
    ensures Inv(GatewayStep(s, c))
  {
    hide WaitersOk, OnceOk, RepliesOk, AgentsOk;
    var (l, st) := (s.links[c], s.links[c].handler.status);
    assert LinkSane(l);
    LinkMoves(s, c, l.(handler := Unrouted(st)));
    hide Inv;
    var s1 := SetHandler(s, c, Unrouted(st));
    assert Owes(s1.links[c].handler, st.task);
    RoutesRemoved(s1, s.tasks - {st.task});
  }

  lemma UnroutedKeeps(s: State, c: Conn)
    requires Inv(s) && c < |s.links| && s.links[c].handler.Unrouted?
    ensures Inv(GatewayStep(s, c))
  {
    hide WaitersOk, OnceOk, RepliesOk, AgentsOk;
    var st := s.links[c].handler.status;
    var outcome := if st.state.Finished? then Completed(c, st.state.chunkCount, st.state.byteCount) else Disconnected;
    assert LinkSane(s.links[c]);
    ResolveKeeps(s, st.task, outcome);
    LinkMoves(Resolve(s, st.task, outcome), c, s.links[c].(handler := Serving));
  }

  lemma OrphanKeeps(s: State, c: Conn, t: TaskId)
    requires Inv(s) && c < |s.links|
    ensures Inv(OrphanStep(s, c, t))
  {
    hide WaitersOk, OnceOk, RepliesOk, AgentsOk;
    var h := s.links[c].handler;
    if h.Removing? && t in h.pending {
      assert LinkSane(s.links[c]);
      ResolveKeeps(s, t, Disconnected);
      LinkMoves(Resolve(s, t, Disconnected), c, s.links[c].(handler := Removing(h.pending - {t}, h.closing)));
    }
  }

  lemma DeviceKeeps(s: State, c: Conn, l: Link)
    requires Inv(s) && c < |s.links|
    requires (exists o :: l == LinkTurn(s.links[c], o)) || l == LinkStop(s.links[c])
    ensures Inv(s.(links := s.links[c := l]))
  {
    hide WaitersOk, OnceOk, RepliesOk, AgentsOk, Handle;
    assert LinkSane(s.links[c]);
    LinkMoves(s, c, l);
  }

  // ---- Requests move on ----

  /** Only `r` changes, and of it only how far it is. */
  ghost predicate TouchesOnly(a: seq<Request>, b: seq<Request>, r: Req) {
    && r < |a| == |b|
    && (forall q :: 0 <= q < |a| && q != r ==> b[q] == a[q])
    && b[r].task == a[r].task && b[r].payload == a[r].payload && b[r].size == a[r].size
  }

  lemma RequestMovesWaiters(s: State, s': State, r: Req)
    requires WaitersOk(s) && TouchesOnly(s.requests, s'.requests, r)
    requires s'.waiters == s.waiters && s'.results == s.results && |s'.links| == |s.links|
    requires forall c :: 0 <= c < |s.links| ==> s'.links[c].handler == s.links[c].handler
    requires forall t :: t in s.tasks ==> t in s'.tasks
    requires forall t :: t in s'.tasks ==> t in s.tasks || t == s.requests[r].task
    requires var (t, pc, pc') := (s.requests[r].task, s.requests[r].pc, s'.requests[r].pc);
             && (t in s.waiters && Clearing(pc) ==> Clearing(pc'))
             && (t in s.waiters && s.waiters[t] == r && OwnerCares(pc, t in s.tasks) ==>
                   OwnerCares(pc', t in s'.tasks) || Clearing(pc'))
    ensures WaitersOk(s')
  {
    forall t | t in s'.waiters ensures WaiterOk(s', t) {
      assert WaiterOk(s, t);
      if SomeoneOwes(s.links, t) {
        var c :| 0 <= c < |s.links| && Owes(s.links[c].handler, t);
        assert Owes(s'.links[c].handler, t);
      } else if SomeoneClears(s.requests, t) {
        var q :| 0 <= q < |s.requests| && s.requests[q].task == t && Clearing(s.requests[q].pc);
        assert s'.requests[q].task == t && Clearing(s'.requests[q].pc);
      } else if Clearing(s'.requests[r].pc) && s.requests[r].task == t {
        assert SomeoneClears(s'.requests, t);
      }
    }
  }

  /** Request `r` moves on: what its new point does for the waiter of its id is no less than the old one did. */
  lemma RequestMoves(s: State, s': State, r: Req)
    requires Inv(s) && TouchesOnly(s.requests, s'.requests, r)
    requires s'.(requests := s.requests, links := s.links, tasks := s.tasks) == s
    requires |s'.links| == |s.links| && LinksSane(s'.links)
    requires forall c :: 0 <= c < |s.links| ==> s'.links[c].handler == s.links[c].handler
    requires forall t :: t in s.tasks ==> t in s'.tasks
    requires forall t :: t in s'.tasks ==> t in s.tasks || t == s.requests[r].task
    requires var (t, pc, pc') := (s.requests[r].task, s.requests[r].pc, s'.requests[r].pc);
             && (t in s.waiters && Clearing(pc) ==> Clearing(pc'))
             && (t in s.waiters && s.waiters[t] == r && OwnerCares(pc, t in s.tasks) ==>
                   OwnerCares(pc', t in s'.tasks) || Clearing(pc'))
             && (pc'.Done? && pc'.reply.Accepted? ==>
                   r in s.results && s.results[r].Completed? && pc'.reply == ReplyTo(s'.requests[r]))
    ensures Inv(s')
  {
    RequestMovesWaiters(s, s', r);
    hide WaitersOk, OwnerCares, Clearing, OnceOk, AgentsOk, LinksSane, ReplyTo;
  }

  lemma PcMoves(s: State, r: Req, pc: Pc)
    requires Inv(s) && r < |s.requests|
    requires var (t, pc0) := (s.requests[r].task, s.requests[r].pc);
             && (t in s.waiters && Clearing(pc0) ==> Clearing(pc))
             && (t in s.waiters && s.waiters[t] == r && OwnerCares(pc0, t in s.tasks) ==>
                   OwnerCares(pc, t in s.tasks) || Clearing(pc))
             && (pc.Done? && pc.reply.Accepted? ==>
                   r in s.results && s.results[r].Completed? && pc.reply == ReplyTo(s.requests[r]))
    ensures Inv(SetPc(s, r, pc))
  {
    hide Inv, Clearing, OwnerCares, LinksSane;
    InvGivesLinks(s);
    RequestMoves(s, SetPc(s, r, pc), r);
  }

  /** A request that is about to clear the waiter removes its own route. */
  lemma OwnRouteRemoved(s: State, r: Req)
    requires Inv(s) && r < |s.requests| && Clearing(s.requests[r].pc)
    ensures Inv(s.(tasks := s.tasks - {s.requests[r].task}))
  {
    hide Inv, Clearing;
    var t := s.requests[r].task;
    assert SomeoneClears(s.requests, t);
    RoutesRemoved(s, s.tasks - {t});
  }

  lemma TransmitKeeps(s: State, r: Req, c: Conn, cmd: Command, next: Pc, lost: Pc)
    requires Inv(s) && r < |s.requests| && c < |s.links|
    requires s.requests[r].pc.Registered? || s.requests[r].pc.Ready?
    requires next.Sending? || next.Waiting?
    requires Clearing(lost)
    ensures Inv(Transmit(s, r, c, cmd, next, lost))
  {
    hide Inv;
    InvGivesLinks(s);
    assert LinkSane(s.links[c]);
    if s.links[c].open {
      RequestMoves(s, Transmit(s, r, c, cmd, next, lost), r);
    } else {
      PcMoves(s, r, lost);
    }
  }

  lemma AdvanceKeeps(s: State, r: Req)
    requires Inv(s) && r < |s.requests|
    ensures Inv(Advanced(s, r))
  {
    hide Inv, ScriptOf, Pieces, Transmit, Resolve;
    var req := s.requests[r];
    match req.pc
    case Subscribed =>
    case Selected(c) => RegisterKeeps(s, r);
    case Registered(c) =>
      if c < |s.links| { TransmitKeeps(s, r, c, Start(req.task), Sending(0), StartLost); }
    case StartLost =>
      OwnRouteRemoved(s, r);
      PcMoves(s.(tasks := s.tasks - {req.task}), r, StartFailed);
    case StartFailed => DropKeeps(s, r);
    case Sending(i) =>
      PcMoves(s, r, if req.task in s.tasks then Found(i, s.tasks[req.task]) else Done(Rejected));
    case Found(i, a) =>
      PcMoves(s, r, if a in s.agents then Ready(i, s.agents[a]) else Lost);
    case Ready(i, c) =>
      if c < |s.links| && i <= ChunkCount(req) {
        TransmitKeeps(s, r, c, Script(req)[i + 1], if i < ChunkCount(req) then Sending(i + 1) else Waiting, Lost);
      }
    case Lost =>
      OwnRouteRemoved(s, r);
      PcMoves(s.(tasks := s.tasks - {req.task}), r, LostRemoved);
    case LostRemoved => ResolveLostKeeps(s, r);
    case Waiting => ReceiveKeeps(s, r);
    case TimedOut => DropKeeps(s, r);
    case Done(_) =>
  }

  lemma RegisterKeeps(s: State, r: Req)
    requires Inv(s) && r < |s.requests| && s.requests[r].pc.Selected?
    ensures Inv(Advanced(s, r))
  {
    hide Inv, LinksSane;
    InvGivesLinks(s);
    RequestMoves(s, Advanced(s, r), r);
  }

  lemma DropKeeps(s: State, r: Req)
    requires Inv(s) && r < |s.requests|
    ensures Inv(SetPc(s.(waiters := s.waiters - {s.requests[r].task}), r, Done(Rejected)))
  {
    hide Inv;
    WaiterDropped(s, s.requests[r].task);
    PcMoves(s.(waiters := s.waiters - {s.requests[r].task}), r, Done(Rejected));
  }

  lemma ResolveLostKeeps(s: State, r: Req)
    requires Inv(s) && r < |s.requests|
    ensures Inv(SetPc(Resolve(s, s.requests[r].task, Disconnected), r, Done(Rejected)))
  {
    hide Inv;
    ResolveKeeps(s, s.requests[r].task, Disconnected);
    PcMoves(Resolve(s, s.requests[r].task, Disconnected), r, Done(Rejected));
  }

  lemma ReceiveKeeps(s: State, r: Req)
    requires Inv(s) && r < |s.requests| && s.requests[r].pc.Waiting?
    ensures Inv(Advanced(s, r))
  {
    hide LinksSane, OnceOk, AgentsOk, RepliesOk, SomeoneClears, SomeoneOwes, Pieces;
    var req := s.requests[r];
    if req.task in s.waiters && s.waiters[req.task] == r {
      assert WaiterOk(s, req.task);
    } else if r in s.results && s.results[r].Completed? {
      PcMoves(s, r, Done(Accepted(req.agent, ChunkCount(req), |req.payload|)));
    } else {
      PcMoves(s, r, Done(Rejected));
    }
  }

  lemma SelectKeeps(s: State, r: Req, choice: Option<AgentId>)
    requires Inv(s) && r < |s.requests|
    ensures Inv(SelectedAgent(s, r, choice))
  {
    hide Inv, LinksSane;
    InvGivesLinks(s);
    if s.requests[r].pc.Subscribed? {
      if choice.None? {
        PcMoves(s, r, StartFailed);
      } else if choice.value in s.agents {
        RequestMoves(s, SelectedAgent(s, r, choice), r);
      }
    }
  }

  lemma SubmitKeeps(s: State, task: TaskId, audio64: string, size: nat)
    requires Inv(s)
    ensures Inv(Submitted(s, task, audio64, size))
  {
    hide Base64.Decode, LinkSane, OnceOk, AgentsOk, SomeoneOwes;
    var s' := Submitted(s, task, audio64, size);
    forall t | t in s'.waiters ensures WaiterOk(s', t) {
      if s'.waiters[t] != |s.requests| {
        assert WaiterOk(s, t);
      }
      if t in s.waiters && SomeoneClears(s.requests, t) {
        var q :| 0 <= q < |s.requests| && s.requests[q].task == t && Clearing(s.requests[q].pc);
        assert s'.requests[q] == s.requests[q];
      }
    }
  }

  // ---- Every run ----

  lemma EventKeeps(s: State, e: Event)
    requires Inv(s)
    ensures Inv(Next(s, e))
  {
    hide Inv, Advanced, SelectedAgent, Submitted, Connected, Unregistered, GatewayStep, OrphanStep, LinkTurn, LinkStop;
    match e
    case Submit(task, audio64, size) => SubmitKeeps(s, task, audio64, size);
    case Select(r, choice) => if r < |s.requests| { SelectKeeps(s, r, choice); }
    case Advance(r) => if r < |s.requests| { AdvanceKeeps(s, r); }
    case Timeout(r) => if r < |s.requests| && s.requests[r].pc.Waiting? { PcMoves(s, r, TimedOut); }
    case Connect(a) => ConnectKeeps(s, a);
    case Unregister(c) => if c < |s.links| && c < |s.owners| { UnregisterKeeps(s, c); }
    case Drop(c) => if c < |s.links| && s.links[c].handler.Serving? { DropConnectionKeeps(s, c); }
    case CloseWriter(c) => if c < |s.links| { CloseKeeps(s, c); }
    case Gateway(c) => if c < |s.links| { GatewayKeeps(s, c); }
    case Orphan(c, t) => if c < |s.links| { OrphanKeeps(s, c, t); }
    case DeviceTurn(c, o) => if c < |s.links| { DeviceKeeps(s, c, LinkTurn(s.links[c], o)); }
    case DeviceStop(c) => if c < |s.links| { DeviceKeeps(s, c, LinkStop(s.links[c])); }
  }

  lemma DropConnectionKeeps(s: State, c: Conn)
    requires Inv(s) && c < |s.links| && s.links[c].handler.Serving?
    ensures Inv(SetHandler(s, c, Closed))
  {
    hide Inv;
    InvGivesLinks(s);
    assert LinkSane(s.links[c]);
    LinkMoves(s, c, s.links[c].(handler := Closed));
  }

  lemma CloseKeeps(s: State, c: Conn)
    requires Inv(s) && c < |s.links|
    ensures Inv(s.(links := s.links[c := s.links[c].(open := false)]))
  {
    hide Inv;
    InvGivesLinks(s);
    assert LinkSane(s.links[c]);
    LinkMoves(s, c, s.links[c].(open := false));
  }

  lemma {:induction false} InvariantOfRuns(events: seq<Event>)
    ensures Inv(Run(events))
  {
    hide Next;
    if events != [] {
      hide Inv;
      InvariantOfRuns(events[..|events| - 1]);
      EventKeeps(Run(events[..|events| - 1]), events[|events| - 1]);
    }
  }

  // ---- One-shot answers, and nothing stranded ----

  /** In every run, whatever ids its requests use, the waiter of a request is answered at most once. */
  lemma AnsweredAtMostOnce(events: seq<Event>, r: Req)
    ensures Run(events).resolutions[r] <= 1
    ensures Run(events).resolutions[r] == 1 <==> r in Run(events).results
  {
    hide Run, Next;
    InvariantOfRuns(events);
  }

  /**
   A returned request that still owns the waiter of its id: a gateway task that
   took the route has yet to answer it, or another request with that id has failed
   and is about to clear it.
   */
  lemma NoWaiterStranded(events: seq<Event>, r: Req)
    requires r < |Run(events).requests| && Run(events).requests[r].pc.Done?
    ensures var s := Run(events);
            var t := s.requests[r].task;
            t in s.waiters && s.waiters[t] == r ==>
              || (exists c :: 0 <= c < |s.links| && Owes(s.links[c].handler, t))
              || (exists q :: 0 <= q < |s.requests| && q != r && s.requests[q].task == t && Clearing(s.requests[q].pc))
  {
    hide Run, Next;
    InvariantOfRuns(events);
    var s := Run(events);
    var t := s.requests[r].task;
    if t in s.waiters && s.waiters[t] == r {
      assert WaiterOk(s, t);
    }
  }

  lemma WaiterIsOk(events: seq<Event>, t: TaskId)
    requires t in Run(events).waiters
    ensures WaiterOk(Run(events), t)
  {
    hide Run, WaiterOk;
    InvariantOfRuns(events);
  }

  /** When every request has returned and every connection is idle or closed, the waiter table is empty. */
  lemma QuietMeansEmpty(events: seq<Event>)
    requires var s := Run(events);
             && (forall r :: 0 <= r < |s.requests| ==> s.requests[r].pc.Done?)
             && (forall c :: 0 <= c < |s.links| ==> s.links[c].handler.Serving? || s.links[c].handler.Closed?)
    ensures Run(events).waiters == map[]
  {
    hide Run, Next;
    var s := Run(events);
    forall t | t in s.waiters ensures false {
      WaiterIsOk(events, t);
    }
    assert s.waiters.Keys == {};
  }
}
