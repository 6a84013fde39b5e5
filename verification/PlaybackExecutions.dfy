/**
 Runs of the play_audio protocol built step by step: one agent connects, requests
 are submitted and routed, the device plays a script, the gateway reads its reports.
 */
module PlaybackExecutions {
  import opened Common
  import opened DeviceAgent
  import opened Playback
  import opened PlaybackRuns
  import Base64

  // ---- Building runs ----

  /** One more event. */
  lemma Then(events: seq<Event>, e: Event) returns (longer: seq<Event>)
    ensures longer == events + [e] && Run(longer) == Next(Run(events), e)
    ensures Submissions(longer) == Submissions(events) + if e.Submit? then [e] else []
  {
    hide Next;
    longer := events + [e];
    assert longer[..|longer| - 1] == events;
  }

  /** `longer` continues `events` without a submission. */
  ghost predicate Continues(events: seq<Event>, longer: seq<Event>) {
    events <= longer && Submissions(longer) == Submissions(events)
  }

  const AGENT: AgentId := "a"

  function AllSends(script: seq<Command>): seq<Send> {
    seq(|script|, k requires 0 <= k < |script| => Send(0, script[k]))
  }

  /** `s` when request `r` has put the first `k` commands of its script on connection 0. */
  function RoutedTo(s: State, r: Req, k: nat, pc: Pc): State
    requires r < |s.requests| && |s.links| == 1 && k <= |Script(s.requests[r])|
  {
    var (req, l) := (s.requests[r], s.links[0]);
    var script := Script(req)[..k];
    s.(tasks := s.tasks[req.task := AGENT],
       requests := s.requests[r := req.(agent := AGENT, pc := pc, sends := AllSends(script))],
       links := [l.(sent := l.sent + script)])
  }

  /** Only agent "a" is registered, on connection 0. */
  ghost predicate OneAgent(s: State) {
    s.agents == map[AGENT := 0] && s.owners == [AGENT] && |s.links| == 1 && s.links[0].open
  }

  ghost predicate Fresh(req: Request) {
    req.pc.Subscribed? && req.sends == [] && req.agent == ""
  }

  lemma Claim(s: State, r: Req)
    requires OneAgent(s) && r < |s.requests| && Fresh(s.requests[r]) && s.requests[r].task !in s.tasks
    ensures Next(Next(s, Select(r, Some(AGENT))), Advance(r)) == RoutedTo(s, r, 0, Registered(0))
  {
    hide ScriptOf;
    var script := Script(s.requests[r]);
    assert AllSends(script[..0]) == [];
    assert s.links[0].sent + script[..0] == s.links[0].sent;
    assert [s.links[0]] == s.links;
  }

  lemma LookUp(s: State, r: Req, k: nat)
    requires OneAgent(s) && r < |s.requests| && 1 <= k < |Script(s.requests[r])|
    ensures Next(Next(RoutedTo(s, r, k, Sending(k - 1)), Advance(r)), Advance(r)) == RoutedTo(s, r, k, Ready(k - 1, 0))
  {
    hide ScriptOf, Pieces;
  }

  /** The `k`-th command of the script is put on connection 0. */
  lemma SendOne(s: State, r: Req, k: nat)
    requires OneAgent(s) && r < |s.requests| && k < |Script(s.requests[r])|
    ensures var n := ChunkCount(s.requests[r]);
            Next(RoutedTo(s, r, k, if k == 0 then Registered(0) else Ready(k - 1, 0)), Advance(r)) ==
            RoutedTo(s, r, k + 1, if k == n + 1 then Waiting else Sending(k))
  {
    var pc := if k == 0 then Registered(0) else Ready(k - 1, 0);
    var s1 := RoutedTo(s, r, k, pc);
    SendsNext(s1, r, k);
    hide Next, ScriptOf, Pieces;
    TransmitsOnOpen(s1, r, Script(s1.requests[r])[k],
                    if k == ChunkCount(s.requests[r]) + 1 then Waiting else Sending(k),
                    if k == 0 then StartLost else Lost);
    OneMoreSent(s, r, k);
  }

  lemma OneMoreSent(s: State, r: Req, k: nat)
    requires |s.links| == 1 && r < |s.requests| && k < |Script(s.requests[r])|
    ensures var script := Script(s.requests[r]);
            && AllSends(script[..k + 1]) == AllSends(script[..k]) + [Send(0, script[k])]
            && s.links[0].sent + script[..k + 1] == (s.links[0].sent + script[..k]) + [script[k]]
  {
    hide ScriptOf;
    var script := Script(s.requests[r]);
    assert script[..k + 1] == script[..k] + [script[k]];
  }

  /** The next send of a request at its start or in the middle of its script. */
  lemma SendsNext(s: State, r: Req, k: nat)
    requires r < |s.requests| && |s.links| == 1 && k < |Script(s.requests[r])|
    requires s.requests[r].pc == if k == 0 then Registered(0) else Ready(k - 1, 0)
    ensures var req := s.requests[r];
            Next(s, Advance(r)) ==
            Transmit(s, r, 0, Script(req)[k], if k == ChunkCount(req) + 1 then Waiting else Sending(k),
                     if k == 0 then StartLost else Lost)
  {
    ScriptNamesTask(s.requests[r], k);
    hide ScriptOf, Pieces, Transmit;
  }

  lemma TransmitsOnOpen(s: State, r: Req, cmd: Command, next: Pc, lost: Pc)
    requires r < |s.requests| && |s.links| == 1 && s.links[0].open
    ensures var (req, l) := (s.requests[r], s.links[0]);
            Transmit(s, r, 0, cmd, next, lost) ==
            s.(requests := s.requests[r := req.(pc := next, sends := req.sends + [Send(0, cmd)])],
               links := [l.(sent := l.sent + [cmd])])
  {}

  lemma {:induction false} SendUpTo(events: seq<Event>, s: State, r: Req, k: nat) returns (longer: seq<Event>)
    requires OneAgent(s) && r < |s.requests| && 1 <= k <= |Script(s.requests[r])|
    requires Run(events) == RoutedTo(s, r, 0, Registered(0))
    ensures Continues(events, longer)
    ensures Run(longer) == RoutedTo(s, r, k, if k == ChunkCount(s.requests[r]) + 2 then Waiting else Sending(k - 1))
    decreases k
  {
    hide Run, Next, RoutedTo, Submissions, OneAgent, ScriptOf, Pieces;
    if k == 1 {
      SendOne(s, r, 0);
      longer := Then(events, Advance(r));
    } else {
      longer := SendUpTo(events, s, r, k - 1);
      LookUp(s, r, k - 1);
      SendOne(s, r, k - 1);
      longer := Then(longer, Advance(r));
      longer := Then(longer, Advance(r));
      longer := Then(longer, Advance(r));
    }
  }

  /** `s` when request `r` has put its whole script on connection 0 and waits. */
  function AllRouted(s: State, r: Req): State
    requires r < |s.requests| && |s.links| == 1
  {
    RoutedTo(s, r, |Script(s.requests[r])|, Waiting)
  }

  lemma RouteAll(events: seq<Event>, r: Req) returns (longer: seq<Event>)
    requires var s := Run(events);
             OneAgent(s) && r < |s.requests| && Fresh(s.requests[r]) && s.requests[r].task !in s.tasks
    ensures Continues(events, longer) && Run(longer) == AllRouted(Run(events), r)
  {
    hide Run, Next, RoutedTo, Submissions, OneAgent, ScriptOf, Pieces, Fresh;
    var s := Run(events);
    assert |s.links| == 1 by { OneLinkOnly(s); }
    Claim(s, r);
    longer := Then(events, Select(r, Some(AGENT)));
    longer := Then(longer, Advance(r));
    longer := SendUpTo(longer, s, r, |Script(s.requests[r])|);
  }

  lemma OneLinkOnly(s: State)
    requires OneAgent(s)
    ensures |s.links| == 1
  {}

  // ---- The device plays a whole script ----

  /** What the player has been given after `j` commands of the script. */
  function Given(parts: seq<seq<byte>>, j: nat): seq<byte>
    requires 1 <= j <= |parts| + 1
  {
    Concat(parts[..j - 1])
  }

  function TrackerAfter(t: TaskId, parts: seq<seq<byte>>, j: nat): Tracker
    requires j <= |parts| + 2
  {
    if j == 0 then IDLE
    else if j <= |parts| + 1 then
      Tracker(map[t := PlaybackTask(j - 1, |Given(parts, j)|)], {}, map[t := Player(Given(parts, j), Playing)])
    else Tracker(map[], {}, map[t := Player(Concat(parts), Succeeded)])
  }

  function StatusesAfter(t: TaskId, parts: seq<seq<byte>>, j: nat): seq<Status> {
    if j == 0 then []
    else if j <= |parts| + 1 then [Status(t, Started)]
    else [Status(t, Started), Status(t, Finished(|parts|, |Concat(parts)|))]
  }

  /** Connection 0 when its device has handled `j` commands of the only script it carries. */
  function LinkAfter(req: Request, j: nat): Link
    requires j <= |Script(req)|
  {
    var parts := Pieces(req.payload, req.size);
    Link(true, Script(req), j, TrackerAfter(req.task, parts, j), true, StatusesAfter(req.task, parts, j), 0, Serving,
         Some(0))
  }

  lemma TurnStarts(t: TaskId, parts: seq<seq<byte>>)
    ensures Handle(TrackerAfter(t, parts, 0), Start(t), Good) == (TrackerAfter(t, parts, 1), [Status(t, Started)])
  {
    var none: set<TaskId> := {};
    assert none - {t} == none;
    assert Given(parts, 1) == [];
  }

  lemma TurnPlays(t: TaskId, parts: seq<seq<byte>>, j: nat)
    requires 1 <= j <= |parts|
    ensures Handle(TrackerAfter(t, parts, j), Chunk(t, Base64.Encode(parts[j - 1])), Good) ==
            (TrackerAfter(t, parts, j + 1), [])
  {
    hide Base64.Encode, Base64.Decode, Concat;
    Base64.RoundTrip(parts[j - 1]);
    assert parts[..j] == parts[..j - 1] + [parts[j - 1]];
    ConcatSnoc(parts[..j - 1], parts[j - 1]);
    assert Given(parts, j + 1) == Given(parts, j) + parts[j - 1];
    var (k, k') := (TrackerAfter(t, parts, j), TrackerAfter(t, parts, j + 1));
    assert k.active[t := k'.active[t]] == k'.active;
    assert k.players[t := k'.players[t]] == k'.players;
  }

  lemma TurnFinishes(t: TaskId, parts: seq<seq<byte>>)
    ensures var n := |parts|;
            Handle(TrackerAfter(t, parts, n + 1), Finish(t), Good) ==
            (TrackerAfter(t, parts, n + 2), [Status(t, Finished(n, |Concat(parts)|))])
  {
    hide Concat;
    var k := TrackerAfter(t, parts, |parts| + 1);
    assert parts[..|parts|] == parts;
    assert k.active - {t} == map[];
    assert k.failedStarts - {t} == {};
    assert k.players[t := Player(Concat(parts), Succeeded)] == map[t := Player(Concat(parts), Succeeded)];
  }

  lemma DeviceHandles(req: Request, j: nat)
    requires j < |Script(req)|
    ensures LinkTurn(LinkAfter(req, j), Good) == LinkAfter(req, j + 1)
  {
    hide Pieces, Base64.Encode;
    var (t, parts) := (req.task, Pieces(req.payload, req.size));
    var x := Script(req)[j];
    assert x == if j == 0 then Start(t) else if j <= |parts| then Chunk(t, Base64.Encode(parts[j - 1])) else Finish(t);
    if j == 0 {
      TurnStarts(t, parts);
    } else if j <= |parts| {
      TurnPlays(t, parts, j);
      assert [Status(t, Started)] + [] == [Status(t, Started)];
    } else {
      TurnFinishes(t, parts);
    }
    hide Handle, TrackerAfter, ScriptOf;
  }

  function WithLink(s: State, l: Link): State { s.(links := [l]) }

  lemma {:induction false} PlayUpTo(events: seq<Event>, req: Request, j: nat) returns (longer: seq<Event>)
    requires j <= |Script(req)|
    requires Run(events).links == [LinkAfter(req, 0)]
    ensures Continues(events, longer) && Run(longer) == WithLink(Run(events), LinkAfter(req, j))
    decreases j
  {
    hide Run, Submissions, LinkAfter, LinkTurn, ScriptOf, Pieces;
    if j == 0 {
      longer := events;
    } else {
      longer := PlayUpTo(events, req, j - 1);
      DeviceHandles(req, j - 1);
      longer := Then(longer, DeviceTurn(0, Good));
    }
  }

  // ---- The gateway reads both reports ----

  /** `s` when the Finished report on connection 0 has answered the waiter of `t`. */
  function Reported(s: State, t: TaskId, chunkCount: nat, byteCount: nat): State
    requires |s.links| == 1
  {
    Resolve(s.(tasks := s.tasks - {t}, links := [s.links[0].(read := 2)]), t, Completed(0, chunkCount, byteCount))
  }

  lemma ReadsOne(s: State, l: Link)
    requires l.handler.Serving? && l.read < |l.statuses|
    ensures Next(WithLink(s, l), Gateway(0)) ==
            WithLink(s, l.(read := l.read + 1, handler := Looking(l.statuses[l.read])))
  {}

  lemma PassesOn(s: State, l: Link, st: Status)
    requires l.handler == Looking(st)
    ensures Next(WithLink(s, l), Gateway(0)) ==
            WithLink(s, l.(handler := if st.task in s.tasks && Terminal(st.state) then Routed(st) else Serving))
  {}

  lemma TakesRoute(s: State, l: Link, st: Status)
    requires l.handler == Routed(st)
    ensures Next(WithLink(s, l), Gateway(0)) ==
            WithLink(s, l.(handler := Unrouted(st))).(tasks := s.tasks - {st.task})
  {}

  lemma ReadReports(events: seq<Event>, t: TaskId, chunkCount: nat, byteCount: nat) returns (longer: seq<Event>)
    requires var s := Run(events);
             && |s.links| == 1 && t in s.tasks && s.links[0].handler == Serving && s.links[0].read == 0
             && s.links[0].statuses == [Status(t, Started), Status(t, Finished(chunkCount, byteCount))]
    ensures Continues(events, longer) && Run(longer) == Reported(Run(events), t, chunkCount, byteCount)
  {
    hide Run, Next, Submissions, Resolve;
    var (s, l) := (Run(events), Run(events).links[0]);
    var st := Status(t, Finished(chunkCount, byteCount));
    assert s == WithLink(s, l);
    ReadsOne(s, l);
    longer := Then(events, Gateway(0));
    PassesOn(s, l.(read := 1, handler := Looking(Status(t, Started))), Status(t, Started));
    longer := Then(longer, Gateway(0));
    ReadsOne(s, l.(read := 1));
    longer := Then(longer, Gateway(0));
    PassesOn(s, l.(read := 2, handler := Looking(st)), st);
    longer := Then(longer, Gateway(0));
    TakesRoute(s, l.(read := 2, handler := Routed(st)), st);
    longer := Then(longer, Gateway(0));
    AnswersAndServes(s, l, st);
    longer := Then(longer, Gateway(0));
  }

  lemma AnswerIgnoresLinks(s: State, t: TaskId, o: Outcomes, links: seq<Link>)
    ensures Resolve(s, t, o).links == s.links
    ensures Resolve(s, t, o).(links := links) == Resolve(s.(links := links), t, o)
  {}

  lemma AnswersAndServes(s: State, l: Link, st: Status)
    requires st.state.Finished?
    ensures Next(WithLink(s, l.(read := 2, handler := Unrouted(st))).(tasks := s.tasks - {st.task}), Gateway(0)) ==
            Resolve(WithLink(s, l.(read := 2, handler := Serving)).(tasks := s.tasks - {st.task}), st.task,
                    Completed(0, st.state.chunkCount, st.state.byteCount))
  {
    hide Resolve;
    var s1 := WithLink(s, l.(read := 2, handler := Unrouted(st))).(tasks := s.tasks - {st.task});
    AnswerIgnoresLinks(s1, st.task, Completed(0, st.state.chunkCount, st.state.byteCount),
                       [l.(read := 2, handler := Serving)]);
  }

  // ---- Submissions in a row ----

  /** What a submission becomes. */
  function NewRequest(e: Event): Request
    requires e.Submit?
  {
    var decoded := Base64.Decode(e.audio64);
    Request(e.task, if decoded.Some? then decoded.value else [], e.size, "",
            if IsAudio(e) then Subscribed else Done(Rejected), [])
  }

  /** `s'` has the new requests, and apart from the waiters nothing else has changed. */
  ghost predicate Added(s: State, s': State, subs: seq<Event>) {
    && s'.(waiters := s.waiters, requests := s.requests) == s
    && |s'.requests| == |s.requests| + |subs|
    && (forall k :: 0 <= k < |s.requests| ==> s'.requests[k] == s.requests[k])
    && (forall k :: 0 <= k < |subs| ==> subs[k].Submit? && s'.requests[|s.requests| + k] == NewRequest(subs[k]))
  }

  lemma SubmitAdds(s: State, e: Event)
    requires e.Submit?
    ensures Added(s, Next(s, e), [e]) && Next(s, e).requests == s.requests + [NewRequest(e)]
    ensures IsAudio(e) ==> e.task in Next(s, e).waiters && Next(s, e).waiters[e.task] == |s.requests|
  {
    hide Base64.Decode;
  }

  lemma NoneAdded(s: State)
    ensures Added(s, s, [])
  {}

  lemma OneMoreAdded(s: State, s1: State, s2: State, init: seq<Event>, e: Event)
    requires Added(s, s1, init) && Added(s1, s2, [e]) && e.Submit? && s2.requests == s1.requests + [NewRequest(e)]
    ensures Added(s, s2, init + [e])
  {
    hide NewRequest;
    var subs := init + [e];
    forall k | 0 <= k < |subs| ensures subs[k].Submit? && s2.requests[|s.requests| + k] == NewRequest(subs[k]) {
      if k < |init| {
        assert init[k] == subs[k] && s1.requests[|s.requests| + k] == NewRequest(init[k]);
      }
    }
  }

  lemma {:induction false} SubmitAll(events: seq<Event>, subs: seq<Event>) returns (longer: seq<Event>)
    requires forall k :: 0 <= k < |subs| ==> subs[k].Submit?
    ensures longer == events + subs && Submissions(longer) == Submissions(events) + subs
    ensures Added(Run(events), Run(longer), subs)
    decreases |subs|
  {
    hide Run, Next, Submissions, Added;
    if subs == [] {
      longer := events;
      NoneAdded(Run(events));
      assert events + subs == events && Submissions(events) + subs == Submissions(events);
    } else {
      var (init, e) := (subs[..|subs| - 1], subs[|subs| - 1]);
      var before := SubmitAll(events, init);
      SubmitAdds(Run(before), e);
      longer := Then(before, e);
      assert init + [e] == subs;
      OneMoreAdded(Run(events), Run(before), Run(longer), init, e);
      assert (events + init) + [e] == events + subs;
      assert (Submissions(events) + init) + [e] == Submissions(events) + subs;
    }
  }

  lemma AgentConnects() returns (events: seq<Event>)
    ensures Submissions(events) == []
    ensures var s := Run(events);
            && OneAgent(s) && s.tasks == map[] && s.waiters == map[] && s.results == map[] && s.requests == []
            && s.links == [Link(true, [], 0, IDLE, true, [], 0, Serving, Some(0))]
  {
    events := Then([], Connect(AGENT));
    assert Run([]) == INITIAL && Submissions([]) == [];
    hide Run, Submissions;
    assert Run(events).links == [Link(true, [], 0, IDLE, true, [], 0, Removing({}, false), None)];
    events := Then(events, Gateway(0));
  }

  /** All that is needed of a submission with audio. */
  lemma AudioIsFresh(e: Event)
    requires IsAudio(e)
    ensures Fresh(NewRequest(e)) && NewRequest(e).task == e.task
    ensures NewRequest(e).payload != [] && Base64.Decode(e.audio64) == Some(NewRequest(e).payload)
  {}

  /** The waiting request may have given up before its audio is played. */
  lemma MayTimeOut(events: seq<Event>, r: Req, late: bool) returns (longer: seq<Event>)
    requires r < |Run(events).requests| && Run(events).requests[r].pc.Waiting?
    ensures Continues(events, longer)
    ensures var (s, s') := (Run(events), Run(longer));
            && s'.(requests := s.requests, waiters := s.waiters) == s
            && s'.requests == s.requests[r := s.requests[r].(pc := if late then Done(Rejected) else Waiting)]
  {
    hide Run, Submissions;
    longer := events;
    if late {
      longer := Then(longer, Timeout(r));
      longer := Then(longer, Advance(r));
    }
    assert Run(events).requests[r := Run(events).requests[r]] == Run(events).requests;
  }

  lemma RoutedRequest(s: State, r: Req)
    requires r < |s.requests| && |s.links| == 1
    ensures var (s', req) := (AllRouted(s, r), s.requests[r]);
            && s'.agents == s.agents && s'.owners == s.owners && s'.results == s.results && s'.waiters == s.waiters
            && s'.tasks == s.tasks[req.task := AGENT] && |s'.requests| == |s.requests|
            && s'.requests[r].pc == Waiting && s'.requests[r].task == req.task && s'.requests[r].sends != []
  {
    hide Pieces;
  }
}
