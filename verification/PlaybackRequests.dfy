/**
 Requests and the submissions they come from: request `r` is the `r`-th submission
 of the run, keeps what it was asked, and does not change once it has returned.
 */
module PlaybackRequests {
  import opened Common
  import opened DeviceAgent
  import opened Playback
  import opened PlaybackWaiters
  import Base64
  import DeviceRegistry

  /** What a request was asked to play; without audio it is rejected at once. */
  ghost predicate Asked(req: Request, e: Event) {
    && e.Submit? && req.task == e.task && req.size == e.size
    && (IsAudio(e) ==> req.payload != [] && Base64.Decode(e.audio64) == Some(req.payload))
    && (!IsAudio(e) ==> req.pc == Done(Rejected) && req.sends == [])
  }

  /** The requests of `a` are asked the same in `b`, and the returned ones are the same. */
  ghost predicate PlansKept(a: seq<Request>, b: seq<Request>) {
    && |a| <= |b|
    && forall r :: 0 <= r < |a| ==>
         && b[r].task == a[r].task && b[r].size == a[r].size && b[r].payload == a[r].payload
         && (a[r].pc.Done? ==> b[r] == a[r])
  }

  lemma SetPcTouches(s: State, r: Req, pc: Pc)
    requires r < |s.requests|
    ensures TouchesOnly(s.requests, SetPc(s, r, pc).requests, r)
  {}

  lemma TransmitTouches(s: State, r: Req, c: Conn, cmd: Command, next: Pc, lost: Pc)
    requires r < |s.requests| && c < |s.links|
    ensures TouchesOnly(s.requests, Transmit(s, r, c, cmd, next, lost).requests, r)
  {
    hide TouchesOnly;
    var req := s.requests[r];
    if s.links[c].open {
      OneReplaced(s.requests, r, req.(pc := next, sends := req.sends + [Send(c, cmd)]));
    } else {
      SetPcTouches(s, r, lost);
    }
  }

  lemma OneReplaced(requests: seq<Request>, r: Req, req: Request)
    requires r < |requests|
    requires req.task == requests[r].task && req.payload == requests[r].payload && req.size == requests[r].size
    ensures TouchesOnly(requests, requests[r := req], r)
  {}

  lemma NothingTouched(requests: seq<Request>, r: Req)
    requires r < |requests|
    ensures TouchesOnly(requests, requests, r)
  {}

  lemma AdvancedTouchesOne(s: State, r: Req)
    requires r < |s.requests|
    ensures TouchesOnly(s.requests, Advanced(s, r).requests, r)
    ensures s.requests[r].pc.Done? ==> Advanced(s, r) == s
  {
    var pc := s.requests[r].pc;
    if pc.Selected? || pc.Registered? || pc.Ready? || pc.Waiting? {
      hide *;
      BusyTouchesOne(s, r);
    } else {
      hide ScriptOf, Pieces, TouchesOnly, SetPc, Transmit;
      var req := s.requests[r];
      NothingTouched(s.requests, r);
      match pc
      case StartLost => SetPcTouches(s.(tasks := s.tasks - {req.task}), r, StartFailed);
      case StartFailed => SetPcTouches(s.(waiters := s.waiters - {req.task}), r, Done(Rejected));
      case Sending(i) =>
        SetPcTouches(s, r, Done(Rejected));
        if req.task in s.tasks { SetPcTouches(s, r, Found(i, s.tasks[req.task])); }
      case Found(i, a) =>
        SetPcTouches(s, r, Lost);
        if a in s.agents { SetPcTouches(s, r, Ready(i, s.agents[a])); }
      case Lost => SetPcTouches(s.(tasks := s.tasks - {req.task}), r, LostRemoved);
      case LostRemoved => SetPcTouches(Resolve(s, req.task, Disconnected), r, Done(Rejected));
      case TimedOut => SetPcTouches(s.(waiters := s.waiters - {req.task}), r, Done(Rejected));
      case _ =>
    }
  }

  lemma BusyTouchesOne(s: State, r: Req)
    requires r < |s.requests|
    requires var pc := s.requests[r].pc; pc.Selected? || pc.Registered? || pc.Ready? || pc.Waiting?
    ensures TouchesOnly(s.requests, Advanced(s, r).requests, r)
  {
    hide ScriptOf, Pieces, TouchesOnly, SetPc, Transmit;
    var req := s.requests[r];
    NothingTouched(s.requests, r);
    match req.pc
    case Selected(c) =>
      SetPcTouches(s, r, StartFailed);
      SetPcTouches(s.(tasks := s.tasks[req.task := req.agent]), r, Registered(c));
    case Registered(c) =>
      if c < |s.links| { TransmitTouches(s, r, c, Start(req.task), Sending(0), StartLost); }
    case Ready(i, c) =>
      if c < |s.links| && i <= ChunkCount(req) {
        TransmitTouches(s, r, c, Script(req)[i + 1], if i < ChunkCount(req) then Sending(i + 1) else Waiting, Lost);
      }
    case Waiting =>
      SetPcTouches(s, r, Done(Rejected));
      SetPcTouches(s, r, Done(Accepted(req.agent, ChunkCount(req), |req.payload|)));
    case _ =>
  }

  lemma TouchedKeepsPlans(a: seq<Request>, b: seq<Request>, r: Req)
    requires r < |a| && (b == a || (TouchesOnly(a, b, r) && !a[r].pc.Done?))
    ensures PlansKept(a, b) && |a| == |b|
  {}

  lemma SelectedTouches(s: State, r: Req, choice: Option<AgentId>)
    requires r < |s.requests|
    ensures PlansKept(s.requests, SelectedAgent(s, r, choice).requests)
    ensures |SelectedAgent(s, r, choice).requests| == |s.requests|
  {}

  lemma ConnectionsKeepRequests(s: State, e: Event)
    requires !e.Submit? && !e.Select? && !e.Advance? && !e.Timeout?
    ensures Next(s, e).requests == s.requests
  {
    hide LinkTurn, LinkStop, DeviceRegistry.TasksOf, DeviceRegistry.TasksWithout;
  }

  /** No event but a submission touches what a request was asked to play. */
  lemma NextKeepsPlans(s: State, e: Event)
    ensures var s' := Next(s, e);
            PlansKept(s.requests, s'.requests) && |s'.requests| == |s.requests| + (if e.Submit? then 1 else 0)
  {
    hide Base64.Decode, Advanced, SelectedAgent, TouchesOnly;
    match e
    case Submit(_, _, _) =>
    case Select(r, choice) => if r < |s.requests| { SelectedTouches(s, r, choice); }
    case Advance(r) =>
      if r < |s.requests| {
        AdvancedTouchesOne(s, r);
        TouchedKeepsPlans(s.requests, Advanced(s, r).requests, r);
      }
    case Timeout(r) =>
      if r < |s.requests| && s.requests[r].pc.Waiting? {
        SetPcTouches(s, r, TimedOut);
        TouchedKeepsPlans(s.requests, SetPc(s, r, TimedOut).requests, r);
      }
    case _ => ConnectionsKeepRequests(s, e);
  }

  lemma SubmitAsks(s: State, e: Event)
    requires e.Submit?
    ensures Asked(Next(s, e).requests[|s.requests|], e)
  {}

  /** Request `r` of a run is asked what its `r`-th submission asks. */
  lemma {:induction false} RequestsAreSubmissions(events: seq<Event>)
    ensures var s := Run(events);
            && |Submissions(events)| == |s.requests|
            && forall r :: 0 <= r < |s.requests| ==> Asked(s.requests[r], Submissions(events)[r])
  {
    hide Next, Base64.Decode;
    if events != [] {
      var (init, e) := (events[..|events| - 1], events[|events| - 1]);
      RequestsAreSubmissions(init);
      NextKeepsPlans(Run(init), e);
      if e.Submit? {
        SubmitAsks(Run(init), e);
      }
      var s := Run(events);
      forall r | 0 <= r < |s.requests| ensures Asked(s.requests[r], Submissions(events)[r]) {
        if r < |Run(init).requests| {
          assert Asked(Run(init).requests[r], Submissions(init)[r]);
        }
      }
    }
  }

  lemma {:induction false} RunKeepsPlans(events: seq<Event>, n: nat)
    requires n <= |events|
    ensures PlansKept(Run(events[..n]).requests, Run(events).requests)
  {
    hide Next;
    if n == |events| {
      assert events[..n] == events;
    } else {
      var init := events[..|events| - 1];
      assert init[..n] == events[..n];
      RunKeepsPlans(init, n);
      NextKeepsPlans(Run(init), events[|events| - 1]);
    }
  }

  lemma {:induction false} SubmissionsPrefix(events: seq<Event>, n: nat)
    requires n <= |events|
    ensures Submissions(events[..n]) <= Submissions(events)
  {
    if n == |events| {
      assert events[..n] == events;
    } else {
      var init := events[..|events| - 1];
      assert init[..n] == events[..n];
      SubmissionsPrefix(init, n);
    }
  }

  /** Event `i`, a submission, is the next one after those before it. */
  lemma SubmissionIs(events: seq<Event>, i: nat)
    requires i < |events| && events[i].Submit?
    ensures |Run(events[..i]).requests| < |Submissions(events)|
    ensures Submissions(events)[|Run(events[..i]).requests|] == events[i]
  {
    hide Run;
    RequestsAreSubmissions(events[..i]);
    SubmissionsPrefix(events, i + 1);
    assert events[..i + 1][..i] == events[..i];
    assert Submissions(events[..i + 1]) == Submissions(events[..i]) + [events[i]];
    hide Submissions;
    assert Submissions(events[..i + 1])[|Submissions(events[..i])|] == events[i];
  }

  /** The event that submitted request `r`. */
  function SubmittedAt(events: seq<Event>, r: Req): (n: nat)
    requires r < |Submissions(events)|
    ensures n < |events| && events[n] == Submissions(events)[r]
  {
    var init := events[..|events| - 1];
    if r < |Submissions(init)| then SubmittedAt(init, r) else |events| - 1
  }
}
