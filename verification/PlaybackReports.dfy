/**
 What a device still has to report on a task id that is used in order, and which
 route is left when nothing more can be reported.
 */
module PlaybackReports {
  import opened Common
  import opened DeviceAgent
  import opened Playback
  import opened PlaybackExecutions
  import opened PlaybackLinks
  import opened PlaybackRequests
  import opened PlaybackRoutes
  import opened PlaybackRuns
  import opened PlaybackWaiters
  import Base64
  import DeviceRegistry

  // ---- One device ----

  /**
   Of the commands for `t` taken since the mark the device has ignored all, because
   they were ahead of the greeting.
   */
  ghost predicate Ignored(l: Link, t: TaskId, m: Mark)
    requires l.consumed <= |l.sent|
  {
    var done := Of(t, l.sent[..l.consumed]);
    |done| <= m.base || !IsGreeted(l) || Of(t, l.sent[..l.greeted.value]) == done
  }

  ghost predicate IsReport(statuses: seq<Status>, t: TaskId, i: nat)
    requires i < |statuses|
  {
    statuses[i].task == t && Terminal(statuses[i].state)
  }

  ghost predicate HasReported(statuses: seq<Status>, t: TaskId, heard: nat) {
    exists i :: heard <= i < |statuses| && IsReport(statuses, t, i)
  }

  ghost predicate NoneFinishedYet(statuses: seq<Status>, t: TaskId, heard: nat) {
    forall i :: heard <= i < |statuses| && statuses[i].task == t ==> !statuses[i].state.Finished?
  }

  /** A device that has taken a command for `t` is at work on it or has reported its end, unless it is gone. */
  ghost predicate DeviceOk(l: Link, t: TaskId, m: Mark) {
    && l.consumed <= |l.sent|
    && (Ignored(l, t, m) || !NoneFinishedYet(l.statuses, t, m.heard) ==> t !in l.tracker.failedStarts)
    && (Ignored(l, t, m) || t in l.tracker.active || HasReported(l.statuses, t, m.heard) || !l.alive)
  }

  lemma ReportsStay(statuses: seq<Status>, out: seq<Status>, t: TaskId, heard: nat)
    requires heard <= |statuses|
    ensures HasReported(statuses, t, heard) ==> HasReported(statuses + out, t, heard)
    ensures (forall i :: 0 <= i < |out| ==> out[i].task != t) ==>
              (NoneFinishedYet(statuses + out, t, heard) <==> NoneFinishedYet(statuses, t, heard))
    ensures |out| == 1 && out[0].task == t && Terminal(out[0].state) ==> HasReported(statuses + out, t, heard)
    ensures NoneFinishedYet(statuses, t, heard) && (forall i :: 0 <= i < |out| ==> !out[i].state.Finished?) ==>
              NoneFinishedYet(statuses + out, t, heard)
  {
    var all := statuses + out;
    if HasReported(statuses, t, heard) {
      var i :| heard <= i < |statuses| && IsReport(statuses, t, i);
      assert IsReport(all, t, i);
    }
    if |out| == 1 && out[0].task == t && Terminal(out[0].state) {
      assert IsReport(all, t, |statuses|);
    }
    assert forall i :: 0 <= i < |statuses| ==> all[i] == statuses[i];
  }

  /** An ignored command leaves the device as it was. */
  lemma IgnoredKeepsDevice(l: Link, t: TaskId, m: Mark)
    requires DeviceOk(l, t, m) && l.consumed < |l.sent| && !IsGreeted(l)
    ensures DeviceOk(l.(consumed := l.consumed + 1), t, m)
  {
    hide Of, HasReported, NoneFinishedYet;
    var l' := l.(consumed := l.consumed + 1);
    assert Ignored(l', t, m);
  }

  lemma OtherTurnKeepsDevice(l: Link, o: Outcome, t: TaskId, m: Mark)
    requires DeviceOk(l, t, m) && m.heard <= |l.statuses|
    requires l.alive && l.consumed < |l.sent| && l.sent[l.consumed].task != t && IsGreeted(l)
    ensures DeviceOk(LinkTurn(l, o), t, m)
  {
    var x := l.sent[l.consumed];
    assert l.sent[..l.consumed + 1] == l.sent[..l.consumed] + [x];
    OfSnoc(t, l.sent[..l.consumed], x);
    HandleIsLocal(l.tracker, x, o, t);
    hide Of, HasReported, NoneFinishedYet, Handle;
    ReportsStay(l.statuses, Handle(l.tracker, x, o).1, t, m.heard);
  }

  /** What one command makes of a task that is at work, or over, or new and not marked as failed. */
  lemma HandleReports(k: Tracker, x: Command, o: Outcome, over: bool)
    requires x.task in k.active || over || x.task !in k.failedStarts
    ensures var (k', out) := Handle(k, x, o);
            && (over || x.task in k'.active || (|out| == 1 && out[0].task == x.task && Terminal(out[0].state)))
            && (forall i :: 0 <= i < |out| ==> (out[i].state.Finished? ==> x.task !in k'.failedStarts))
            && |out| <= 1
  {
    hide Base64.Decode;
  }

  lemma OwnIsNotIgnored(l: Link, t: TaskId, m: Mark)
    requires l.consumed < |l.sent| && l.sent[l.consumed].task == t && IsGreeted(l)
    requires m.base <= |Of(t, l.sent[..l.consumed])|
    ensures !Ignored(l.(consumed := l.consumed + 1), t, m)
  {
    var (x, done) := (l.sent[l.consumed], Of(t, l.sent[..l.consumed]));
    assert l.sent[..l.consumed + 1] == l.sent[..l.consumed] + [x];
    OfSnoc(t, l.sent[..l.consumed], x);
    OfPrefix(t, l.sent[..l.consumed], l.greeted.value);
    assert l.sent[..l.consumed][..l.greeted.value] == l.sent[..l.greeted.value];
    hide Of;
  }

  lemma EpochHasNotFinished(l: Link, t: TaskId, m: Mark, mine: seq<Command>)
    requires EpochOk(l, t, m, mine) && Shape(mine) && Handled(l, t, m) < mine
    ensures NoneFinishedYet(l.statuses, t, m.heard)
  {
    hide Of, ActiveOk, FinishedOk, Shape;
    forall i | m.heard <= i < |l.statuses| && l.statuses[i].task == t ensures !l.statuses[i].state.Finished? {
      assert ReportOk(l.tracker, l.statuses, i, t, Handled(l, t, m));
      NoneFinished(l.tracker, l.statuses, i, t, Handled(l, t, m), mine);
    }
  }

  lemma OwnTurnKeepsDevice(l: Link, o: Outcome, t: TaskId, m: Mark, mine: seq<Command>)
    requires EpochOk(l, t, m, mine) && Shape(mine) && DeviceOk(l, t, m)
    requires l.alive && l.consumed < |l.sent| && l.sent[l.consumed].task == t && IsGreeted(l)
    ensures DeviceOk(LinkTurn(l, o), t, m)
  {
    OwnHandled(l, t, m, mine);
    StartIsFirst(Handled(l, t, m), l.sent[l.consumed], mine);
    EpochHasNotFinished(l, t, m, mine);
    OwnIsNotIgnored(l, t, m);
    var x := l.sent[l.consumed];
    HandleReports(l.tracker, x, o, HasReported(l.statuses, t, m.heard));
    hide Of, HasReported, NoneFinishedYet, Handle, EpochOk, Shape;
    ReportsStay(l.statuses, Handle(l.tracker, x, o).1, t, m.heard);
  }

  lemma TurnKeepsDevice(l: Link, o: Outcome, t: TaskId, m: Mark, mine: seq<Command>)
    requires EpochOk(l, t, m, mine) && Shape(mine) && DeviceOk(l, t, m)
    ensures DeviceOk(LinkTurn(l, o), t, m)
  {
    assert m.heard <= |l.statuses|;
    hide EpochOk, Shape, DeviceOk, Handle;
    if l.alive && l.consumed < |l.sent| {
      if !IsGreeted(l) {
        IgnoredKeepsDevice(l, t, m);
      } else if l.sent[l.consumed].task == t {
        OwnTurnKeepsDevice(l, o, t, m, mine);
      } else {
        OtherTurnKeepsDevice(l, o, t, m);
      }
    }
  }

  lemma StopKeepsDevice(l: Link, t: TaskId, m: Mark)
    requires DeviceOk(l, t, m)
    ensures DeviceOk(LinkStop(l), t, m)
  {
    hide Of, HasReported, NoneFinishedYet;
  }

  lemma EnqueueKeepsDevice(l: Link, x: Command, t: TaskId, m: Mark)
    requires DeviceOk(l, t, m)
    ensures DeviceOk(l.(sent := l.sent + [x]), t, m)
  {
    hide Of, HasReported, NoneFinishedYet;
    var l' := l.(sent := l.sent + [x]);
    assert l'.sent[..l.consumed] == l.sent[..l.consumed];
    if IsGreeted(l) {
      assert l'.sent[..l.greeted.value] == l.sent[..l.greeted.value];
    }
  }

  /** The gateway's side of a connection does not matter to the device, except that it is greeted after all there is. */
  lemma GatewaySideKeepsDevice(l: Link, l': Link, t: TaskId, m: Mark)
    requires DeviceOk(l, t, m)
    requires l'.(open := l.open, read := l.read, handler := l.handler, greeted := l.greeted) == l
    requires l'.greeted == l.greeted || (l.greeted.None? && l'.greeted == Some(|l.sent|))
    ensures DeviceOk(l', t, m)
  {
    hide Of, HasReported, NoneFinishedYet;
  }

  // ---- All devices ----

  ghost predicate DevicesOk(links: seq<Link>, t: TaskId, marks: seq<Mark>) {
    forall c :: 0 <= c < |links| ==> DeviceOk(links[c], t, MarkAt(marks, c))
  }

  /** What one event may do to one connection, apart from what its device does. */
  ghost predicate GatewayStepped(l: Link, l': Link) {
    || (l'.(sent := l.sent) == l && |l'.sent| == |l.sent| + 1 && l'.sent[..|l.sent|] == l.sent)
    || (&& l'.(open := l.open, read := l.read, handler := l.handler, greeted := l.greeted) == l
        && (l'.greeted == l.greeted || (l.greeted.None? && l'.greeted == Some(|l.sent|))))
  }

  lemma SteppedKeepsDevice(l: Link, l': Link, t: TaskId, m: Mark)
    requires DeviceOk(l, t, m) && GatewayStepped(l, l')
    ensures DeviceOk(l', t, m)
  {
    hide DeviceOk;
    if |l'.sent| == |l.sent| {
      GatewaySideKeepsDevice(l, l', t, m);
    } else {
      assert l'.sent == l.sent + [l'.sent[|l.sent|]];
      EnqueueKeepsDevice(l, l'.sent[|l.sent|], t, m);
    }
  }

  lemma UntouchedSteps(l: Link)
    ensures GatewayStepped(l, l)
  {}

  lemma EnqueueSteps(l: Link, x: Command)
    ensures GatewayStepped(l, l.(sent := l.sent + [x]))
  {}

  lemma SideSteps(l: Link, read: nat, h: Handler)
    ensures GatewayStepped(l, l.(read := read, handler := h))
    ensures l.greeted.None? ==> GatewayStepped(l, l.(read := read, handler := h, greeted := Some(|l.sent|)))
  {}

  lemma TransmitSteps(s: State, r: Req, c: Conn, cmd: Command, next: Pc, lost: Pc, d: Conn)
    requires r < |s.requests| && c < |s.links| && d < |s.links|
    ensures var s' := Transmit(s, r, c, cmd, next, lost);
            |s'.links| == |s.links| && GatewayStepped(s.links[d], s'.links[d])
  {
    UntouchedSteps(s.links[d]);
    EnqueueSteps(s.links[c], cmd);
    hide GatewayStepped;
  }

  lemma AdvanceSteps(s: State, r: Req, d: Conn)
    requires r < |s.requests| && d < |s.links|
    ensures |Advanced(s, r).links| == |s.links| && GatewayStepped(s.links[d], Advanced(s, r).links[d])
  {
    hide Pieces, ScriptOf, Transmit;
    var req := s.requests[r];
    match req.pc
    case Registered(c) =>
      if c < |s.links| { TransmitSteps(s, r, c, Start(req.task), Sending(0), StartLost, d); }
    case Ready(i, c) =>
      if c < |s.links| && i <= ChunkCount(req) {
        TransmitSteps(s, r, c, Script(req)[i + 1], if i < ChunkCount(req) then Sending(i + 1) else Waiting, Lost, d);
      }
    case LostRemoved => ResolveSpares(s, req.task, Disconnected);
    case _ =>
  }

  lemma AnswerSteps(s: State, c: Conn, u: TaskId, x: Outcomes, h: Handler)
    requires c < |s.links|
    ensures var s1 := Resolve(s, u, x);
            && |s1.links| == |s.links| && SetHandler(s1, c, h).links == s.links[c := s.links[c].(handler := h)]
  {}

  /** The gateway task of a connection touches that connection only, and on it only its own side. */
  lemma GatewayOwnStep(s: State, c: Conn) returns (l: Link)
    requires LinksSane(s.links) && c < |s.links|
    ensures GatewayStep(s, c).links == s.links[c := l] && GatewayStepped(s.links[c], l)
  {
    l := s.links[c];
    assert LinkSane(l) && s.links[c := l] == s.links;
    hide LinksSane, LinkSane, Resolve, GatewayStepped;
    var h := l.handler;
    UntouchedSteps(l);
    if h.Unrouted? {
      var state := h.status.state;
      AnswerSteps(s, c, h.status.task, if state.Finished? then Completed(c, state.chunkCount, state.byteCount)
                                       else Disconnected, Serving);
      l := l.(handler := Serving);
      SideSteps(s.links[c], l.read, Serving);
    } else {
      l := PlainStep(s, c);
    }
  }

  lemma PlainStep(s: State, c: Conn) returns (l: Link)
    requires c < |s.links| && !s.links[c].handler.Unrouted?
    requires s.links[c].handler.Removing? && !s.links[c].handler.closing ==> s.links[c].greeted.None?
    ensures GatewayStep(s, c).links == s.links[c := l] && GatewayStepped(s.links[c], l)
  {
    var l0 := s.links[c];
    l := l0;
    assert s.links[c := l0] == s.links;
    UntouchedSteps(l0);
    hide GatewayStepped;
    match l0.handler
    case Removing(pending, closing) =>
      if pending == {} {
        l := if closing || !l0.open then l0.(handler := Closed)
             else l0.(handler := Serving, greeted := Some(|l0.sent|));
        SideSteps(l0, l0.read, l.handler);
      }
    case Serving =>
      if l0.read < |l0.statuses| {
        l := l0.(read := l0.read + 1, handler := Looking(l0.statuses[l0.read]));
        SideSteps(l0, l.read, l.handler);
      }
    case Looking(st) =>
      l := l0.(handler := if st.task in s.tasks && Terminal(st.state) then Routed(st) else Serving);
      SideSteps(l0, l0.read, l.handler);
    case Routed(st) =>
      l := l0.(handler := Unrouted(st));
      SideSteps(l0, l0.read, l.handler);
    case Closed =>
  }

  lemma GatewaySteps(s: State, c: Conn, d: Conn)
    requires LinksSane(s.links) && c < |s.links| && d < |s.links|
    ensures |GatewayStep(s, c).links| == |s.links| && GatewayStepped(s.links[d], GatewayStep(s, c).links[d])
  {
    hide *;
    var l := GatewayOwnStep(s, c);
    UntouchedSteps(s.links[d]);
  }

  lemma CloseSteps(l: Link)
    ensures GatewayStepped(l, l.(open := false))
  {}

  lemma EventSteps(s: State, e: Event, d: Conn)
    requires LinksSane(s.links) && d < |s.links| && !e.DeviceTurn? && !e.DeviceStop?
    ensures d < |Next(s, e).links| && GatewayStepped(s.links[d], Next(s, e).links[d])
  {
    hide LinksSane, Advanced, GatewayStep, Resolve, GatewayStepped, Submitted, SelectedAgent;
    UntouchedSteps(s.links[d]);
    match e
    case Submit(task, audio64, size) => SubmitLeavesLinks(s, e);
    case Select(r, choice) => if r < |s.requests| { SelectLeavesLinks(s, r, choice); }
    case Advance(r) => if r < |s.requests| { AdvanceSteps(s, r, d); }
    case Gateway(c) => if c < |s.links| { GatewaySteps(s, c, d); }
    case Unregister(c) =>
      if c < |s.links| && c < |s.owners| {
        SideSteps(s.links[c], s.links[c].read, Removing(DeviceRegistry.TasksOf(s.tasks, s.owners[c]), true));
      }
    case Drop(c) => if c < |s.links| { SideSteps(s.links[c], s.links[c].read, Closed); }
    case CloseWriter(c) => if c < |s.links| { CloseSteps(s.links[c]); }
    case Orphan(c, u) => if c < |s.links| { OrphanSteps(s, c, u, d); }
    case _ =>
  }

  lemma SubmitLeavesLinks(s: State, e: Event)
    requires e.Submit?
    ensures Submitted(s, e.task, e.audio64, e.size).links == s.links
  {
    hide Base64.Decode;
  }

  lemma SelectLeavesLinks(s: State, r: Req, choice: Option<AgentId>)
    requires r < |s.requests|
    ensures SelectedAgent(s, r, choice).links == s.links
  {}

  lemma OrphanSteps(s: State, c: Conn, u: TaskId, d: Conn)
    requires c < |s.links| && d < |s.links|
    ensures |OrphanStep(s, c, u).links| == |s.links| && GatewayStepped(s.links[d], OrphanStep(s, c, u).links[d])
  {
    hide Resolve, GatewayStepped;
    UntouchedSteps(s.links[d]);
    var h := s.links[c].handler;
    if h.Removing? && u in h.pending {
      AnswerSteps(s, c, u, Disconnected, Removing(h.pending - {u}, h.closing));
      SideSteps(s.links[c], s.links[c].read, Removing(h.pending - {u}, h.closing));
    }
  }

  lemma FreshDeviceOk(pending: set<TaskId>, t: TaskId)
    ensures DeviceOk(Link(true, [], 0, IDLE, true, [], 0, Removing(pending, false), None), t, Mark(0, 0, None))
  {
    assert Of(t, []) == [];
  }

  lemma DeviceEventKeeps(s: State, e: Event, d: Conn, t: TaskId, o: Option<Req>, marks: seq<Mark>)
    requires IdOk(s, t, o, marks) && d < |s.links| && DeviceOk(s.links[d], t, MarkAt(marks, d))
    requires e.DeviceTurn? || e.DeviceStop?
    ensures d < |Next(s, e).links| && DeviceOk(Next(s, e).links[d], t, MarkAt(marks, d))
  {
    hide DeviceOk, IdOk, EpochOk, Shape, LinkTurn, LinkStop;
    EpochAt(s, d, t, o, marks);
    MineHasShape(s, d, t, o, marks);
    hide Mine, MarkAt;
    if e.conn == d {
      if e.DeviceTurn? {
        TurnKeepsDevice(s.links[d], e.outcome, t, MarkAt(marks, d), Mine(s.requests, o, d));
      } else {
        StopKeepsDevice(s.links[d], t, MarkAt(marks, d));
      }
    }
  }

  lemma EventKeepsDevices(s: State, e: Event, t: TaskId, o: Option<Req>, marks: seq<Mark>)
    requires Inv(s) && IdOk(s, t, o, marks) && DevicesOk(s.links, t, marks)
    ensures DevicesOk(Next(s, e).links, t, marks)
  {
    InvGivesLinks(s);
    IdGives(s, t, o, marks);
    hide Inv, IdOk, DeviceOk, Next, GatewayStepped, LinksSane, AgentsOk;
    var links := Next(s, e).links;
    forall d | 0 <= d < |links| ensures DeviceOk(links[d], t, MarkAt(marks, d)) {
      if d >= |s.links| {
        OnlyFreshLinks(s, e, d);
        FreshDeviceOk(links[d].handler.pending, t);
      } else if e.DeviceTurn? || e.DeviceStop? {
        DeviceEventKeeps(s, e, d, t, o, marks);
      } else {
        EventSteps(s, e, d);
        SteppedKeepsDevice(s.links[d], links[d], t, MarkAt(marks, d));
      }
    }
  }

  lemma OnlyFreshLinks(s: State, e: Event, d: Conn)
    requires |s.links| <= d < |Next(s, e).links|
    ensures var h := Next(s, e).links[d].handler;
            h.Removing? && Next(s, e).links[d] == Link(true, [], 0, IDLE, true, [], 0, Removing(h.pending, false), None)
  {
    hide Base64.Decode, LinkTurn, LinkStop, GatewayStep, Advanced;
    match e
    case Advance(r) => if r < |s.requests| { LinkCountKept(s, r); }
    case Gateway(c) => if c < |s.links| { LinkCountKeptByGateway(s, c); }
    case _ =>
  }

  lemma TransmitKeepsCount(s: State, r: Req, c: Conn, cmd: Command, next: Pc, lost: Pc)
    requires r < |s.requests| && c < |s.links|
    ensures |Transmit(s, r, c, cmd, next, lost).links| == |s.links|
  {}

  lemma LinkCountKept(s: State, r: Req)
    requires r < |s.requests|
    ensures |Advanced(s, r).links| == |s.links|
  {
    hide Pieces, ScriptOf, Transmit, Resolve;
    var req := s.requests[r];
    match req.pc
    case Registered(c) =>
      if c < |s.links| { TransmitKeepsCount(s, r, c, Start(req.task), Sending(0), StartLost); }
    case Ready(i, c) =>
      if c < |s.links| && i <= ChunkCount(req) {
        TransmitKeepsCount(s, r, c, Script(req)[i + 1], if i < ChunkCount(req) then Sending(i + 1) else Waiting, Lost);
      }
    case LostRemoved => ResolveSpares(s, req.task, Disconnected);
    case _ =>
  }

  lemma LinkCountKeptByGateway(s: State, c: Conn)
    requires c < |s.links|
    ensures |GatewayStep(s, c).links| == |s.links|
  {}

  // ---- What the gateway has heard ----

  /** While the route is there, at most the report in hand has been read. */
  ghost predicate HeardOk(l: Link, t: TaskId, heard: nat) {
    forall i :: heard <= i < l.read && i < |l.statuses| && IsReport(l.statuses, t, i) ==>
      i == l.read - 1 && (l.handler.Looking? || l.handler.Routed?)
  }

  /** The route of the id is its current request's, and no report of it has been dealt with. */
  ghost predicate RoutedOk(s: State, t: TaskId, o: Option<Req>, marks: seq<Mark>) {
    t in s.tasks ==>
      && o.Some? && IsRouteOf(s, t, o.value)
      && forall c :: 0 <= c < |s.links| ==> HeardOk(s.links[c], t, MarkAt(marks, c).heard)
  }

  lemma HeardStaysOk(l: Link, l': Link, t: TaskId, heard: nat)
    requires HeardOk(l, t, heard) && l.read <= |l.statuses| && l.statuses <= l'.statuses && l'.read == l.read
    requires l.handler.Looking? || l.handler.Routed? ==> l'.handler == l.handler
    ensures HeardOk(l', t, heard)
  {
    forall i | heard <= i < l'.read && i < |l'.statuses| && IsReport(l'.statuses, t, i)
      ensures i == l'.read - 1 && (l'.handler.Looking? || l'.handler.Routed?)
    {
      assert IsReport(l.statuses, t, i);
    }
  }

  /** Only a connection's own gateway task reads from it or moves a status on. */
  ghost predicate LeftAlone(l: Link, l': Link) {
    && l.statuses <= l'.statuses && l'.read == l.read
    && (l.handler.Looking? || l.handler.Routed? ==> l'.handler == l.handler)
  }

  lemma Untouched(l: Link)
    ensures LeftAlone(l, l)
  {}

  lemma EnqueueLeavesAlone(l: Link, x: Command)
    ensures LeftAlone(l, l.(sent := l.sent + [x]))
  {}

  lemma SideLeavesAlone(l: Link, h: Handler)
    requires !l.handler.Looking? && !l.handler.Routed?
    ensures LeftAlone(l, l.(handler := h))
  {}

  lemma CloseLeavesAlone(l: Link)
    ensures LeftAlone(l, l.(open := false))
  {}

  lemma DeviceLeavesAlone(l: Link, o: Outcome)
    ensures LeftAlone(l, LinkTurn(l, o)) && LeftAlone(l, LinkStop(l))
  {
    hide Handle, AbortAll;
  }

  lemma TransmitLeavesAlone(s: State, r: Req, c: Conn, cmd: Command, next: Pc, lost: Pc, d: Conn)
    requires r < |s.requests| && c < |s.links| && d < |s.links|
    ensures var s' := Transmit(s, r, c, cmd, next, lost); |s'.links| == |s.links| && LeftAlone(s.links[d], s'.links[d])
  {
    Untouched(s.links[d]);
    EnqueueLeavesAlone(s.links[c], cmd);
    hide LeftAlone;
  }

  lemma AdvanceLeavesAlone(s: State, r: Req, d: Conn)
    requires r < |s.requests| && d < |s.links|
    ensures |Advanced(s, r).links| == |s.links| && LeftAlone(s.links[d], Advanced(s, r).links[d])
  {
    hide Pieces, ScriptOf, Transmit, LeftAlone;
    Untouched(s.links[d]);
    var req := s.requests[r];
    match req.pc
    case Registered(c) =>
      if c < |s.links| { TransmitLeavesAlone(s, r, c, Start(req.task), Sending(0), StartLost, d); }
    case Ready(i, c) =>
      if c < |s.links| && i <= ChunkCount(req) {
        TransmitLeavesAlone(s, r, c, Script(req)[i + 1], if i < ChunkCount(req) then Sending(i + 1) else Waiting, Lost,
                            d);
      }
    case LostRemoved => ResolveSpares(s, req.task, Disconnected);
    case _ =>
  }

  lemma EventLeavesAlone(s: State, e: Event, d: Conn)
    requires d < |s.links| && e != Gateway(d)
    ensures d < |Next(s, e).links| && LeftAlone(s.links[d], Next(s, e).links[d])
  {
    hide Advanced, GatewayStep, Resolve, LeftAlone, Submitted, SelectedAgent, LinkTurn, LinkStop;
    Untouched(s.links[d]);
    match e
    case Submit(task, audio64, size) => SubmitLeavesLinks(s, e);
    case Select(r, choice) => if r < |s.requests| { SelectLeavesLinks(s, r, choice); }
    case Advance(r) => if r < |s.requests| { AdvanceLeavesAlone(s, r, d); }
    case Gateway(c) => if c < |s.links| { OtherGatewayLeavesAlone(s, c, d); }
    case Unregister(c) =>
      if c < |s.links| && c < |s.owners| && s.links[c].handler.Serving? {
        SideLeavesAlone(s.links[c], Removing(DeviceRegistry.TasksOf(s.tasks, s.owners[c]), true));
      }
    case Drop(c) => if c < |s.links| && s.links[c].handler.Serving? { SideLeavesAlone(s.links[c], Closed); }
    case CloseWriter(c) => if c < |s.links| { CloseLeavesAlone(s.links[c]); }
    case Orphan(c, u) => if c < |s.links| { OrphanLeavesAlone(s, c, u, d); }
    case DeviceTurn(c, o) => if c < |s.links| { DeviceLeavesAlone(s.links[c], o); }
    case DeviceStop(c) => if c < |s.links| { DeviceLeavesAlone(s.links[c], Good); }
    case _ =>
  }

  lemma OrphanLeavesAlone(s: State, c: Conn, u: TaskId, d: Conn)
    requires c < |s.links| && d < |s.links|
    ensures |OrphanStep(s, c, u).links| == |s.links| && LeftAlone(s.links[d], OrphanStep(s, c, u).links[d])
  {
    hide Resolve, LeftAlone;
    Untouched(s.links[d]);
    var h := s.links[c].handler;
    if h.Removing? && u in h.pending {
      AnswerSteps(s, c, u, Disconnected, Removing(h.pending - {u}, h.closing));
      SideLeavesAlone(s.links[c], Removing(h.pending - {u}, h.closing));
    }
  }

  lemma OtherGatewayLeavesAlone(s: State, c: Conn, d: Conn)
    requires c < |s.links| && d < |s.links| && c != d
    ensures |GatewayStep(s, c).links| == |s.links| && GatewayStep(s, c).links[d] == s.links[d]
  {
    var h := s.links[c].handler;
    if h.Unrouted? {
      var state := h.status.state;
      AnswerSteps(s, c, h.status.task, if state.Finished? then Completed(c, state.chunkCount, state.byteCount)
                                       else Disconnected, Serving);
      hide Resolve;
    }
  }

  lemma ReadHears(l: Link, t: TaskId, heard: nat)
    requires HeardOk(l, t, heard) && l.handler.Serving? && l.read < |l.statuses|
    ensures HeardOk(l.(read := l.read + 1, handler := Looking(l.statuses[l.read])), t, heard)
  {}

  /** With no report of `t` in hand the gateway task may move on. */
  lemma MovesOnHears(l: Link, t: TaskId, heard: nat, h: Handler, greeted: Option<nat>)
    requires HeardOk(l, t, heard) && LinkSane(l)
    requires l.handler.Looking? || l.handler.Routed? ==>
               l.handler.status.task != t || !Terminal(l.handler.status.state) || h.Routed?
    ensures HeardOk(l.(handler := h, greeted := greeted), t, heard)
  {}

  /** The gateway reads on: a report whose route is there is in hand until the route has been taken out. */
  lemma GatewayKeepsHeard(s: State, c: Conn, t: TaskId, heard: nat)
    requires c < |s.links| && LinkSane(s.links[c]) && HeardOk(s.links[c], t, heard)
    requires t in s.tasks && t in GatewayStep(s, c).tasks
    ensures |GatewayStep(s, c).links| == |s.links| && HeardOk(GatewayStep(s, c).links[c], t, heard)
  {
    var l := s.links[c];
    if l.handler.Unrouted? {
      var state := l.handler.status.state;
      AnswerSteps(s, c, l.handler.status.task, if state.Finished? then Completed(c, state.chunkCount, state.byteCount)
                                               else Disconnected, Serving);
      hide HeardOk, LinkSane, Resolve;
      MovesOnHears(l, t, heard, Serving, l.greeted);
    } else {
      hide HeardOk, LinkSane, Resolve;
      PlainKeepsHeard(s, c, t, heard);
    }
  }

  lemma PlainKeepsHeard(s: State, c: Conn, t: TaskId, heard: nat)
    requires c < |s.links| && LinkSane(s.links[c]) && HeardOk(s.links[c], t, heard) && !s.links[c].handler.Unrouted?
    requires t in s.tasks && t in GatewayStep(s, c).tasks
    ensures |GatewayStep(s, c).links| == |s.links| && HeardOk(GatewayStep(s, c).links[c], t, heard)
  {
    hide HeardOk, LinkSane, Resolve;
    var l := s.links[c];
    match l.handler
    case Removing(_, _) =>
      MovesOnHears(l, t, heard, Closed, l.greeted);
      MovesOnHears(l, t, heard, Serving, Some(|l.sent|));
    case Serving => if l.read < |l.statuses| { ReadHears(l, t, heard); }
    case Looking(st) =>
      MovesOnHears(l, t, heard, if st.task in s.tasks && Terminal(st.state) then Routed(st) else Serving, l.greeted);
    case Routed(st) => MovesOnHears(l, t, heard, Unrouted(st), l.greeted);
    case Closed =>
  }

  lemma EventKeepsHeard(s: State, e: Event, t: TaskId, d: Conn, heard: nat)
    requires LinksSane(s.links) && d < |s.links| && HeardOk(s.links[d], t, heard)
    requires t in s.tasks && t in Next(s, e).tasks
    ensures d < |Next(s, e).links| && HeardOk(Next(s, e).links[d], t, heard)
  {
    assert LinkSane(s.links[d]);
    if e == Gateway(d) {
      hide GatewayStep, HeardOk;
      GatewayKeepsHeard(s, d, t, heard);
    } else {
      EventLeavesAlone(s, e, d);
      hide Next, HeardOk;
      HeardStaysOk(s.links[d], Next(s, e).links[d], t, heard);
    }
  }

  lemma FreshHeardOk(pending: set<TaskId>, t: TaskId, heard: nat)
    ensures HeardOk(Link(true, [], 0, IDLE, true, [], 0, Removing(pending, false), None), t, heard)
  {}

  lemma RouteKeepsOk(s: State, e: Event, t: TaskId, o: Option<Req>, marks: seq<Mark>)
    requires Inv(s) && RoutedOk(s, t, o, marks) && AllFollow(s.requests)
    requires t in s.tasks && t in Next(s, e).tasks
    ensures RoutedOk(Next(s, e), t, o, marks)
  {
    RouteStays(s, e, t, o.value);
    InvGivesLinks(s);
    hide Inv, Next, AllFollow, IsRouteOf, HeardOk, LinksSane, AgentsOk;
    forall d | 0 <= d < |Next(s, e).links| ensures HeardOk(Next(s, e).links[d], t, MarkAt(marks, d).heard) {
      if d < |s.links| {
        EventKeepsHeard(s, e, t, d, MarkAt(marks, d).heard);
      } else {
        OnlyFreshLinks(s, e, d);
        FreshHeardOk(Next(s, e).links[d].handler.pending, t, MarkAt(marks, d).heard);
      }
    }
  }

  /** The request that inserts the route is the current one, and nothing has been reported for it. */
  lemma StartedIsCurrent(s: State, q: Req, t: TaskId, o: Option<Req>, marks: seq<Mark>)
    requires IdOk(s, t, o, marks) && q < |s.requests| && s.requests[q].task == t && s.requests[q].pc.Selected?
    ensures o == Some(q) && s.requests[q].sends == []
  {
    hide WiresOk, Pieces, ScriptOf, AnswerOk, RouteOk, OthersSettled;
    if o != Some(q) {
      SettledStays(s, q, t, o, marks);
    }
  }

  lemma NothingReported(s: State, t: TaskId, o: Option<Req>, marks: seq<Mark>, d: Conn)
    requires IdOk(s, t, o, marks) && d < |s.links| && Mine(s.requests, o, d) == []
    ensures HeardOk(s.links[d], t, MarkAt(marks, d).heard)
  {
    EpochAt(s, d, t, o, marks);
    hide IdOk;
    var (l, m) := (s.links[d], MarkAt(marks, d));
    HandledIsSent(l, t, m, []);
    hide Of, ActiveOk, FinishedOk;
    forall i | m.heard <= i < |l.statuses| ensures !IsReport(l.statuses, t, i) {
      assert ReportOk(l.tracker, l.statuses, i, t, Handled(l, t, m));
    }
  }

  lemma RouteStartsOk(s: State, e: Event, t: TaskId, o: Option<Req>, marks: seq<Mark>)
    requires IdOk(s, t, o, marks) && t !in s.tasks && t in Next(s, e).tasks
    ensures RoutedOk(Next(s, e), t, o, marks)
  {
    var q := RouteStarts(s, e, t);
    StartedIsCurrent(s, q, t, o, marks);
    RegisterKeepsLinks(s, q);
    hide IdOk, Next, Advanced, IsRouteOf, HeardOk;
    assert Next(s, e).links == s.links;
    forall d | 0 <= d < |s.links| ensures HeardOk(s.links[d], t, MarkAt(marks, d).heard) {
      NothingReported(s, t, o, marks, d);
    }
  }

  lemma RegisterKeepsLinks(s: State, q: Req)
    requires q < |s.requests| && s.requests[q].pc.Selected?
    ensures Next(s, Advance(q)).links == s.links
  {}

  lemma EventKeepsRouted(s: State, e: Event, t: TaskId, o: Option<Req>, marks: seq<Mark>)
    requires Inv(s) && IdOk(s, t, o, marks) && RoutedOk(s, t, o, marks) && AllFollow(s.requests)
    ensures RoutedOk(Next(s, e), t, o, marks)
  {
    hide Inv, IdOk, AllFollow, Next, IsRouteOf, HeardOk;
    if t in Next(s, e).tasks {
      if t in s.tasks {
        RouteKeepsOk(s, e, t, o, marks);
      } else {
        RouteStartsOk(s, e, t, o, marks);
      }
    }
  }

  // ---- The next request with the id ----

  lemma UnusedIsClean(s: State, t: TaskId, o: Option<Req>, marks: seq<Mark>, d: Conn)
    requires IdOk(s, t, o, marks) && d < |s.links| && DeviceOk(s.links[d], t, MarkAt(marks, d))
    requires Mine(s.requests, o, d) == []
    ensures t !in s.links[d].tracker.failedStarts
  {
    EpochAt(s, d, t, o, marks);
    HandledIsSent(s.links[d], t, MarkAt(marks, d), []);
    hide IdOk, Of, HasReported, NoneFinishedYet;
  }

  lemma FinishedIsClean(l: Link, t: TaskId, m: Mark, req: Request)
    requires DeviceOk(l, t, m) && exists i :: m.heard <= i < |l.statuses| && ScriptFinished(l, t, i, req)
    ensures t !in l.tracker.failedStarts
  {
    hide Of, FinishedOk, Ignored, HasReported;
  }

  /** Once all requests of the id are settled no device remembers a failed start of it. */
  lemma SettledIsClean(s: State, t: TaskId, o: Option<Req>, marks: seq<Mark>, d: Conn)
    requires Inv(s) && IdOk(s, t, o, marks) && AllSettled(s.requests, t) && DevicesOk(s.links, t, marks)
    requires d < |s.links|
    ensures t !in s.links[d].tracker.failedStarts
  {
    assert DeviceOk(s.links[d], t, MarkAt(marks, d));
    IdGives(s, t, o, marks);
    hide Inv, IdOk, DeviceOk, DevicesOk, ScriptFinished, LinkSane, Quiet, To;
    if o.Some? && s.requests[o.value].pc.reply.Accepted? {
      var c := AcceptedPins(s, t, o.value, marks);
      if d == c {
        FinishedIsClean(s.links[d], t, MarkAt(marks, d), s.requests[o.value]);
      } else {
        ToNone(d, s.requests[o.value].sends);
        UnusedIsClean(s, t, o, marks, d);
      }
    } else {
      NothingSent(s.requests, o, d);
      UnusedIsClean(s, t, o, marks, d);
    }
  }

  lemma NothingSent(requests: seq<Request>, o: Option<Req>, d: Conn)
    requires o.Some? ==> o.value < |requests| && requests[o.value].sends == []
    ensures Mine(requests, o, d) == []
  {}

  lemma CleanStarts(l: Link, t: TaskId)
    requires LinkSane(l) && t !in l.tracker.failedStarts
    ensures DeviceOk(l, t, MarkOf(l, t))
  {
    OfPrefix(t, l.sent, l.consumed);
    hide Of;
  }

  lemma SubmitStartsDevices(s: State, t: TaskId, o: Option<Req>, marks: seq<Mark>)
    requires Inv(s) && IdOk(s, t, o, marks) && AllSettled(s.requests, t) && DevicesOk(s.links, t, marks)
    ensures DevicesOk(s.links, t, MarksOf(s.links, t))
  {
    InvGivesLinks(s);
    hide Inv, IdOk, AllSettled, DeviceOk, MarkOf, AgentsOk;
    forall d | 0 <= d < |s.links| ensures DeviceOk(s.links[d], t, MarkAt(MarksOf(s.links, t), d)) {
      assert LinkSane(s.links[d]);
      SettledIsClean(s, t, o, marks, d);
      CleanStarts(s.links[d], t);
    }
  }

  // ---- Every run ----

  ghost predicate IdReports(s: State, t: TaskId, o: Option<Req>, marks: seq<Mark>) {
    DevicesOk(s.links, t, marks) && RoutedOk(s, t, o, marks)
  }

  lemma SubmitKeepsTables(s: State, e: Event)
    requires e.Submit?
    ensures Next(s, e).links == s.links && Next(s, e).tasks == s.tasks
  {
    hide Base64.Decode;
  }

  lemma SubmitStartsReports(s: State, e: Event, t: TaskId, o: Option<Req>, marks: seq<Mark>)
    requires Inv(s) && IdOk(s, t, o, marks) && AllSettled(s.requests, t) && DevicesOk(s.links, t, marks) && e.Submit?
    ensures IdReports(Next(s, e), t, Some(|s.requests|), MarksOf(s.links, t))
  {
    SettledIsQuiet(s, t, o, marks);
    SubmitKeepsTables(s, e);
    SubmitStartsDevices(s, t, o, marks);
    assert t !in s.tasks;
    hide Next, Inv, IdOk, AllSettled, AllQuiet, DevicesOk, MarksOf;
  }

  lemma EventKeepsReports(s: State, e: Event, t: TaskId, o: Option<Req>, marks: seq<Mark>)
    requires Inv(s) && IdOk(s, t, o, marks) && IdReports(s, t, o, marks) && AllFollow(s.requests)
    ensures IdReports(Next(s, e), t, o, marks)
  {
    hide Inv, IdOk, AllFollow, Next, DevicesOk, RoutedOk;
    EventKeepsDevices(s, e, t, o, marks);
    EventKeepsRouted(s, e, t, o, marks);
  }

  lemma ReportsAtFirst(t: TaskId)
    ensures IdReports(INITIAL, t, None, [])
  {}

  /**
   In every run in which an id is used in order: a device that has taken any command
   of the id's current request since greeted is at work on it or has reported its end,
   and while the route is there the gateway has not dealt with such a report.
   */
  lemma {:induction false} OrderlyIdsReport(events: seq<Event>, t: TaskId)
    requires Orderly(events, t)
    ensures IdReports(Run(events), t, Current(events, t), MarksAt(events, t))
  {
    hide Next, IdOk, Inv, IsAudio, AllSettled, MarksOf, IdReports, AllFollow;
    if events == [] {
      ReportsAtFirst(t);
    } else {
      var (init, e) := (events[..|events| - 1], events[|events| - 1]);
      OrderlyPrefix(events, t, |init|);
      InvariantOfRuns(init);
      RequestsFollow(init);
      OrderlyIdsStayOk(init, t);
      OrderlyIdsReport(init, t);
      DevicesAre(Run(init), t, Current(init, t), MarksAt(init, t));
      if IsAudioOf(e, t) {
        assert AllSettled(Run(init).requests, t);
        AudioIsSubmit(e);
        SubmitStartsReports(Run(init), e, t, Current(init, t), MarksAt(init, t));
      } else {
        EventKeepsReports(Run(init), e, t, Current(init, t), MarksAt(init, t));
      }
    }
  }

  lemma DevicesAre(s: State, t: TaskId, o: Option<Req>, marks: seq<Mark>)
    requires IdReports(s, t, o, marks)
    ensures DevicesOk(s.links, t, marks)
  {}

  lemma AudioIsSubmit(e: Event)
    requires IsAudio(e)
    ensures e.Submit?
  {}

  // ---- The routes that are left ----

  /** The device has taken all there is, and the gateway has dealt with all it reported. */
  ghost predicate Drained(l: Link) {
    l.alive && l.consumed == |l.sent| && l.read == |l.statuses| && !Holds(l.handler)
  }

  /** Every command for `t` was ahead of the greeting. */
  ghost predicate AllAheadOfGreeting(l: Link, t: TaskId) {
    forall k :: 0 <= k < |l.sent| && l.sent[k].task == t ==> l.greeted.None? || k < l.greeted.value
  }

  lemma {:induction false} SamePrefixMeansNone(t: TaskId, cmds: seq<Command>, g: nat)
    requires g <= |cmds| && Of(t, cmds[..g]) == Of(t, cmds)
    ensures forall k :: g <= k < |cmds| ==> cmds[k].task != t
  {
    if g < |cmds| {
      var init := cmds[..|cmds| - 1];
      assert init[..g] == cmds[..g];
      OfPrefix(t, init, g);
      OfPrefix(t, cmds, |init|);
      SamePrefixMeansNone(t, init, g);
    }
  }

  /** After its finish a task is no longer at work. */
  lemma FinishedIsIdle(k: Tracker, t: TaskId, pre: seq<Command>)
    requires ActiveOk(k, t, pre) && pre != [] && pre[|pre| - 1].Finish?
    ensures t !in k.active
  {}

  lemma DrainedIsHeard(l: Link, t: TaskId, heard: nat)
    requires HeardOk(l, t, heard) && Drained(l)
    ensures !HasReported(l.statuses, t, heard)
  {}

  /** A drained connection that carried the finish has ignored every command of the request. */
  lemma DrainedIgnored(l: Link, t: TaskId, m: Mark, mine: seq<Command>)
    requires EpochOk(l, t, m, mine) && DeviceOk(l, t, m) && HeardOk(l, t, m.heard) && Drained(l)
    requires mine != [] && mine[|mine| - 1].Finish?
    ensures AllAheadOfGreeting(l, t)
  {
    HandledIsSent(l, t, m, mine);
    DrainedIsHeard(l, t, m.heard);
    assert l.sent[..l.consumed] == l.sent;
    FinishedIsIdle(l.tracker, t, mine);
    hide Of, ActiveOk, HasReported, NoneFinishedYet, HeardOk, ReportOk;
    assert Ignored(l, t, m) && |Of(t, l.sent)| > m.base;
    if IsGreeted(l) {
      SamePrefixMeansNone(t, l.sent, l.greeted.value);
    }
  }

  lemma LastIsMine(requests: seq<Request>, r: Req, c: Conn)
    requires r < |requests| && requests[r].sends != [] && requests[r].sends[|requests[r].sends| - 1].conn == c
    ensures var mine := Mine(requests, Some(r), c);
            var sends := requests[r].sends;
            mine != [] && mine[|mine| - 1] == sends[|sends| - 1].cmd
  {}

  /** What the owner of a route left behind has sent. */
  lemma OwnerSentFinish(s: State, t: TaskId, r: Req)
    requires IsRouteOf(s, t, r) && AllFollow(s.requests) && s.requests[r].pc.Done?
    ensures var req := s.requests[r];
            && req.agent == s.tasks[t] && req.agent in s.agents && req.sends != []
            && req.sends[|req.sends| - 1].conn == s.agents[req.agent] && req.sends[|req.sends| - 1].cmd.Finish?
  {
    hide Pieces, Base64.Encode;
    assert Follows(s.requests[r]);
  }

  /**
   An id used in order: a route whose requests have all returned, on a connection on
   which nothing more can happen, is left only when the device has ignored the whole
   request because it was put on the connection ahead of the greeting. Otherwise the
   device reports and the route goes.
   */
  lemma DrainedRouteWasIgnored(events: seq<Event>, t: TaskId)
    requires Orderly(events, t) && t in Run(events).tasks
    requires var s := Run(events);
             forall r :: 0 <= r < |s.requests| && s.requests[r].task == t ==> s.requests[r].pc.Done?
    ensures var s := Run(events);
            var a := s.tasks[t];
            && a in s.agents && s.agents[a] < |s.links|
            && (Drained(s.links[s.agents[a]]) ==> AllAheadOfGreeting(s.links[s.agents[a]], t))
  {
    hide *;
    var (s, o, marks) := (Run(events), Current(events, t), MarksAt(events, t));
    OrderlyIdsReport(events, t);
    OrderlyIdsStayOk(events, t);
    InvariantOfRuns(events);
    RequestsFollow(events);
    InvGivesLinks(s);
    ReportsGive(s, t, o, marks);
    var r := o.value;
    OwnerSentFinish(s, t, r);
    var a := s.tasks[t];
    AgentAt(s.agents, s.owners, a);
    var c := s.agents[a];
    LastIsMine(s.requests, r, c);
    EpochAt(s, c, t, o, marks);
    DeviceAt(s, t, o, marks, c);
    if Drained(s.links[c]) {
      DrainedIgnored(s.links[c], t, MarkAt(marks, c), Mine(s.requests, o, c));
    }
  }

  lemma AgentAt(agents: map<AgentId, Conn>, owners: seq<AgentId>, a: AgentId)
    requires AgentsOk(agents, owners) && a in agents
    ensures agents[a] < |owners|
  {}

  lemma ReportsGive(s: State, t: TaskId, o: Option<Req>, marks: seq<Mark>)
    requires IdReports(s, t, o, marks) && t in s.tasks
    ensures o.Some? && IsRouteOf(s, t, o.value) && o.value < |s.requests| && s.requests[o.value].task == t
  {
    hide DevicesOk, HeardOk, Keeps;
  }

  lemma DeviceAt(s: State, t: TaskId, o: Option<Req>, marks: seq<Mark>, c: Conn)
    requires IdReports(s, t, o, marks) && t in s.tasks && c < |s.links|
    ensures DeviceOk(s.links[c], t, MarkAt(marks, c)) && HeardOk(s.links[c], t, MarkAt(marks, c).heard)
  {
    hide DeviceOk, HeardOk, IsRouteOf;
  }

  // ---- The greeting can come too late ----

  /** A connection that carries one script ahead of its greeting, of which the device has ignored `j` commands. */
  function Swallowing(script: seq<Command>, j: nat): Link {
    Link(true, script, j, IDLE, true, [], 0, Serving, Some(|script|))
  }

  lemma {:induction false} IgnoreUpTo(events: seq<Event>, script: seq<Command>, j: nat) returns (longer: seq<Event>)
    requires j <= |script| && Run(events).links == [Swallowing(script, 0)]
    ensures Continues(events, longer) && Run(longer) == WithLink(Run(events), Swallowing(script, j))
    decreases j
  {
    hide Run, Submissions;
    if j == 0 {
      longer := events;
    } else {
      longer := IgnoreUpTo(events, script, j - 1);
      longer := Then(longer, DeviceTurn(0, Good));
    }
  }

  /** A request is routed to an agent that is registered and not greeted yet. */
  lemma RoutedAhead(e: Event) returns (events: seq<Event>)
    requires IsAudio(e) && e.Submit?
    ensures Submissions(events) == [e]
    ensures var (s, req) := (Run(events), NewRequest(e));
            && s.agents == map[AGENT := 0] && s.tasks == map[req.task := AGENT]
            && |s.requests| == 1 && s.requests[0].pc == Waiting && s.requests[0].task == req.task
            && s.links == [Link(true, Script(req), 0, IDLE, true, [], 0, Removing({}, false), None)]
  {
    AudioIsFresh(e);
    assert Run([]) == INITIAL && Submissions([]) == [];
    hide Run, Submissions, NewRequest, ScriptOf, Pieces, IsAudio;
    var req := NewRequest(e);
    events := Then([], Connect(AGENT));
    var s0 := Run(events);
    assert s0.links == [Link(true, [], 0, IDLE, true, [], 0, Removing({}, false), None)];
    SubmitAdds(s0, e);
    events := Then(events, e);
    var s := Run(events);
    assert s.(waiters := s0.waiters, requests := s0.requests) == s0;
    assert s.requests == [req];
    hide Added, Next;
    events := RouteAll(events, 0);
    RoutedRequest(s, 0);
    assert [] + Script(req)[..|Script(req)|] == Script(req);
  }

  /** The gateway greets its agent. */
  lemma GreetsLate(s: State, script: seq<Command>)
    requires s.links == [Link(true, script, 0, IDLE, true, [], 0, Removing({}, false), None)]
    ensures Next(s, Gateway(0)) == WithLink(s, Swallowing(script, 0))
  {}

  lemma SwallowedIsDrained(req: Request)
    ensures var l := Swallowing(Script(req), |Script(req)|); Drained(l) && AllAheadOfGreeting(l, req.task)
  {
    hide ScriptOf;
  }

  /**
   The case occurs for any audio: a request routed before its agent is greeted is
   ignored as a whole, times out, and leaves its route behind until the agent leaves.
   */
  lemma GreetingComesTooLate(e: Event) returns (events: seq<Event>)
    requires IsAudio(e)
    ensures Submissions(events) == [e]
    ensures var s := Run(events);
            && |s.requests| == 1 && s.requests[0].pc == Done(Rejected) && e.Submit? && e.task in s.tasks
            && |s.links| == 1 && Drained(s.links[0]) && AllAheadOfGreeting(s.links[0], e.task)
  {
    AudioIsSubmit(e);
    AudioIsFresh(e);
    var req := NewRequest(e);
    hide Run, Submissions, Next, NewRequest, ScriptOf, Pieces, IsAudio, Drained, AllAheadOfGreeting;
    events := RoutedAhead(e);
    GreetsLate(Run(events), Script(req));
    events := Then(events, Gateway(0));
    events := IgnoreUpTo(events, Script(req), |Script(req)|);
    events := MayTimeOut(events, 0, true);
    SwallowedIsDrained(req);
  }
}
