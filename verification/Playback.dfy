/**
 The play_audio protocol as a state machine. Its atomic steps are the lock
 scopes and channel operations of `/control` requests, of the gateway's agent
 connections and of the device agents, interleaved in any order. An event that
 is not enabled leaves the state as it is, so a run is any sequence of events.

 Channels are append-only logs with a read position, which makes them FIFO.
 */
module Playback {
  import opened Common
  import opened DeviceAgent
  import Base64
  import DeviceRegistry

  /** A gateway-agent connection, numbered in the order of registration. */
  type Conn = nat
  /** A `/control` play_audio request, numbered in the order of arrival. */
  type Req = nat

  const DEFAULT_CHUNK_SIZE := 16 * 1024

  datatype Reply = Accepted(agent: AgentId, chunkCount: nat, totalBytes: nat) | Rejected

  /** Where a request stands; `i` numbers the message to route next, the finish being the last one. */
  datatype Pc =
    | Subscribed
    | Selected(conn: Conn)
    | Registered(conn: Conn)
    | StartLost
    | StartFailed
    | Sending(i: nat)
    | Found(i: nat, agent: AgentId)
    | Ready(i: nat, conn: Conn)
    | Lost
    | LostRemoved
    | Waiting
    | TimedOut
    | Done(reply: Reply)

  datatype Send = Send(conn: Conn, cmd: Command)

  /** `sends` is the history of what the request put on which connection. */
  datatype Request = Request(
    task: TaskId,
    payload: seq<byte>,
    size: nat,
    agent: AgentId,
    pc: Pc,
    sends: seq<Send>)

  /** The gateway task that serves one agent connection. */
  datatype Handler =
    | Removing(pending: set<TaskId>, closing: bool)
    | Serving
    | Looking(status: Status)
    | Routed(status: Status)
    | Unrouted(status: Status)
    | Closed

  /**
   One connection: commands enqueued for the agent, how many the agent has taken,
   its tracker, the statuses it sent and how many the gateway has read. The gateway
   registers an agent before it greets it, so commands may be ahead of the greeting;
   `greeted` says how many. The device ignores those.
   */
  datatype Link = Link(
    open: bool,
    sent: seq<Command>,
    consumed: nat,
    tracker: Tracker,
    alive: bool,
    statuses: seq<Status>,
    read: nat,
    handler: Handler,
    greeted: Option<nat>)

  /** What a request's oneshot waiter was resolved with; `conn` records who reported it. */
  datatype Outcomes = Completed(conn: Conn, chunkCount: nat, byteCount: nat) | Disconnected

  /** `owners[c]` is the agent that registered connection `c`; `resolutions` counts oneshot sends per request. */
  datatype State = State(
    agents: map<AgentId, Conn>,
    tasks: map<TaskId, AgentId>,
    waiters: map<TaskId, Req>,
    results: map<Req, Outcomes>,
    resolutions: multiset<Req>,
    requests: seq<Request>,
    owners: seq<AgentId>,
    links: seq<Link>)

  const INITIAL := State(map[], map[], map[], map[], multiset{}, [], [], [])

  datatype Event =
    | Submit(task: TaskId, audio64: string, size: nat)
    | Select(req: Req, choice: Option<AgentId>)
    | Advance(req: Req)
    | Timeout(req: Req)
    | Connect(agent: AgentId)
    | Unregister(conn: Conn)
    | Drop(conn: Conn)
    | CloseWriter(conn: Conn)
    | Gateway(conn: Conn)
    | Orphan(conn: Conn, task: TaskId)
    | DeviceTurn(conn: Conn, outcome: Outcome)
    | DeviceStop(conn: Conn)

  // ---- Requests ----

  function SetPc(s: State, r: Req, pc: Pc): State
    requires r < |s.requests|
  {
    s.(requests := s.requests[r := s.requests[r].(pc := pc)])
  }

  /** The pieces of the payload; a chunk size of zero means the default. */
  function Pieces(payload: seq<byte>, size: nat): seq<seq<byte>> {
    Chunks(payload, if size > 0 then size else DEFAULT_CHUNK_SIZE)
  }

  function ChunkCount(req: Request): nat { |Pieces(req.payload, req.size)| }

  /** The commands a complete request sends: start, every chunk in base64, finish. */
  function ScriptOf(task: TaskId, payload: seq<byte>, size: nat): (script: seq<Command>)
    ensures |script| == |Pieces(payload, size)| + 2
  {
    var parts := Pieces(payload, size);
    [Start(task)] + seq(|parts|, i requires 0 <= i < |parts| => Chunk(task, Base64.Encode(parts[i]))) + [Finish(task)]
  }

  function Script(req: Request): seq<Command> { ScriptOf(req.task, req.payload, req.size) }

  /** The payload is decoded and must not be empty; only then is a waiter subscribed. */
  function Submitted(s: State, task: TaskId, audio64: string, size: nat): State {
    var decoded := Base64.Decode(audio64);
    var payload := if decoded.Some? then decoded.value else [];
    var bad := payload == [];
    var req := Request(task, payload, size, "", if bad then Done(Rejected) else Subscribed, []);
    s.(requests := s.requests + [req],
       waiters := if bad then s.waiters else s.waiters[task := |s.requests|])
  }

  /** `resolve_task_waiter`: takes the waiter out and answers it. */
  function Resolve(s: State, task: TaskId, outcome: Outcomes): State {
    if task in s.waiters then
      s.(waiters := s.waiters - {task},
         results := s.results[s.waiters[task] := outcome],
         resolutions := s.resolutions + multiset{s.waiters[task]})
    else s
  }

  /** Puts a command on a connection, or moves to `lost` when its receiver is gone. */
  function Transmit(s: State, r: Req, c: Conn, cmd: Command, next: Pc, lost: Pc): State
    requires r < |s.requests| && c < |s.links|
  {
    if s.links[c].open then
      s.(links := s.links[c := s.links[c].(sent := s.links[c].sent + [cmd])],
         requests := s.requests[r := s.requests[r].(pc := next, sends := s.requests[r].sends + [Send(c, cmd)])])
    else SetPc(s, r, lost)
  }

  /** The next step of a request whose program counter determines it. */
  function Advanced(s: State, r: Req): State
    requires r < |s.requests|
  {
    var req := s.requests[r];
    match req.pc
    case Subscribed => s
    case Selected(c) =>
      if req.task in s.tasks then SetPc(s, r, StartFailed)
      else SetPc(s.(tasks := s.tasks[req.task := req.agent]), r, Registered(c))
    case Registered(c) =>
      if c < |s.links| then Transmit(s, r, c, Start(req.task), Sending(0), StartLost) else s
    case StartLost => SetPc(s.(tasks := s.tasks - {req.task}), r, StartFailed)
    case StartFailed => SetPc(s.(waiters := s.waiters - {req.task}), r, Done(Rejected))
    case Sending(i) =>
      if req.task in s.tasks then SetPc(s, r, Found(i, s.tasks[req.task])) else SetPc(s, r, Done(Rejected))
    case Found(i, a) =>
      if a in s.agents then SetPc(s, r, Ready(i, s.agents[a])) else SetPc(s, r, Lost)
    case Ready(i, c) =>
      if c < |s.links| && i <= ChunkCount(req) then
        Transmit(s, r, c, Script(req)[i + 1], if i < ChunkCount(req) then Sending(i + 1) else Waiting, Lost)
      else s
    case Lost => SetPc(s.(tasks := s.tasks - {req.task}), r, LostRemoved)
    case LostRemoved => SetPc(Resolve(s, req.task, Disconnected), r, Done(Rejected))
    case Waiting =>
      if r in s.results then
        var completed := s.results[r].Completed?;
        SetPc(s, r, Done(if completed then Accepted(req.agent, ChunkCount(req), |req.payload|) else Rejected))
      else if req.task in s.waiters && s.waiters[req.task] == r then s
      else SetPc(s, r, Done(Rejected))
    case TimedOut => SetPc(s.(waiters := s.waiters - {req.task}), r, Done(Rejected))
    case Done(_) => s
  }

  /** A speaker agent is selected, or none matches. */
  function SelectedAgent(s: State, r: Req, choice: Option<AgentId>): State
    requires r < |s.requests|
  {
    if !s.requests[r].pc.Subscribed? then s
    else if choice.None? then SetPc(s, r, StartFailed)
    else if choice.value in s.agents then
      s.(requests := s.requests[r := s.requests[r].(pc := Selected(s.agents[choice.value]), agent := choice.value)])
    else s
  }

  // ---- Agent connections ----

  function SetHandler(s: State, c: Conn, h: Handler): State
    requires c < |s.links|
  {
    s.(links := s.links[c := s.links[c].(handler := h)])
  }

  /** A new connection registers `a`; replacing a registration orphans the tasks routed to it. */
  function Connected(s: State, a: AgentId): State {
    var replacing := a in s.agents;
    var pending := if replacing then DeviceRegistry.TasksOf(s.tasks, a) else {};
    s.(agents := s.agents[a := |s.links|],
       tasks := if replacing then DeviceRegistry.TasksWithout(s.tasks, a) else s.tasks,
       owners := s.owners + [a],
       links := s.links + [Link(true, [], 0, IDLE, true, [], 0, Removing(pending, false), None)])
  }

  /** The connection ends: whatever is registered under its agent id goes, with its tasks. */
  function Unregistered(s: State, c: Conn): State
    requires c < |s.links| && c < |s.owners|
  {
    var a := s.owners[c];
    if s.links[c].handler.Serving? then
      SetHandler(s.(agents := s.agents - {a}, tasks := DeviceRegistry.TasksWithout(s.tasks, a)),
                 c, Removing(DeviceRegistry.TasksOf(s.tasks, a), true))
    else s
  }

  /** The next step of a connection's gateway task. */
  function GatewayStep(s: State, c: Conn): State
    requires c < |s.links|
  {
    var l := s.links[c];
    match l.handler
    case Removing(pending, closing) =>
      if pending != {} then s
      else if closing || !l.open then SetHandler(s, c, Closed)
      else s.(links := s.links[c := l.(handler := Serving, greeted := Some(|l.sent|))])
    case Serving =>
      if l.read < |l.statuses| then
        s.(links := s.links[c := l.(read := l.read + 1, handler := Looking(l.statuses[l.read]))])
      else s
    case Looking(st) =>
      SetHandler(s, c, if st.task in s.tasks && Terminal(st.state) then Routed(st) else Serving)
    case Routed(st) => SetHandler(s.(tasks := s.tasks - {st.task}), c, Unrouted(st))
    case Unrouted(st) =>
      var outcome := if st.state.Finished? then Completed(c, st.state.chunkCount, st.state.byteCount) else Disconnected;
      SetHandler(Resolve(s, st.task, outcome), c, Serving)
    case Closed => s
  }

  /** A removal in progress answers one of its orphaned tasks. */
  function OrphanStep(s: State, c: Conn, t: TaskId): State
    requires c < |s.links|
  {
    var h := s.links[c].handler;
    if h.Removing? && t in h.pending then
      SetHandler(Resolve(s, t, Disconnected), c, Removing(h.pending - {t}, h.closing))
    else s
  }

  // ---- Device agents ----

  /** The device has been greeted when it takes its next command. */
  predicate IsGreeted(l: Link) { l.greeted.Some? && l.greeted.value <= l.consumed }

  function LinkTurn(l: Link, o: Outcome): Link {
    if l.alive && l.consumed < |l.sent| && !IsGreeted(l) then l.(consumed := l.consumed + 1)
    else if l.alive && l.consumed < |l.sent| then
      var (k, out) := Handle(l.tracker, l.sent[l.consumed], o);
      l.(tracker := k, consumed := l.consumed + 1, statuses := l.statuses + out)
    else l
  }

  function LinkStop(l: Link): Link {
    if l.alive then l.(alive := false, tracker := AbortAll(l.tracker)) else l
  }

  // ---- Runs ----

  function Next(s: State, e: Event): State {
    match e
    case Submit(task, audio64, size) => Submitted(s, task, audio64, size)
    case Select(r, choice) => if r < |s.requests| then SelectedAgent(s, r, choice) else s
    case Advance(r) => if r < |s.requests| then Advanced(s, r) else s
    case Timeout(r) => if r < |s.requests| && s.requests[r].pc.Waiting? then SetPc(s, r, TimedOut) else s
    case Connect(a) => Connected(s, a)
    case Unregister(c) => if c < |s.links| && c < |s.owners| then Unregistered(s, c) else s
    case Drop(c) => if c < |s.links| && s.links[c].handler.Serving? then SetHandler(s, c, Closed) else s
    case CloseWriter(c) => if c < |s.links| then s.(links := s.links[c := s.links[c].(open := false)]) else s
    case Gateway(c) => if c < |s.links| then GatewayStep(s, c) else s
    case Orphan(c, t) => if c < |s.links| then OrphanStep(s, c, t) else s
    case DeviceTurn(c, o) => if c < |s.links| then s.(links := s.links[c := LinkTurn(s.links[c], o)]) else s
    case DeviceStop(c) => if c < |s.links| then s.(links := s.links[c := LinkStop(s.links[c])]) else s
  }

  function Run(events: seq<Event>): State {
    if events == [] then INITIAL else Next(Run(events[..|events| - 1]), events[|events| - 1])
  }

  lemma RunSnoc(events: seq<Event>, e: Event)
    ensures Run(events + [e]) == Next(Run(events), e)
  {
    hide Next;
    assert (events + [e])[..|events|] == events;
  }

  /** The submissions of a run, in order: request `r` is the `r`-th of them. */
  function Submissions(events: seq<Event>): seq<Event> {
    if events == [] then []
    else
      var last := events[|events| - 1];
      Submissions(events[..|events| - 1]) + if last.Submit? then [last] else []
  }

  /** The submission carries audio: its payload decodes and is not empty. */
  predicate IsAudio(e: Event) {
    e.Submit? && Base64.Decode(e.audio64).Some? && Base64.Decode(e.audio64).value != []
  }

  predicate IsAudioOf(e: Event, t: TaskId) { IsAudio(e) && e.task == t }
}
