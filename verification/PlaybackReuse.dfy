/**
 When task ids may be used again. A device's Finished report names only the task id,
 so a report for one request can answer the waiter of a later one with the same id;
 the runs built here show for which reuses that happens, and that it is for those only.
 */
module PlaybackReuse {
  import opened Common
  import opened DeviceAgent
  import opened Playback
  import opened PlaybackExecutions
  import opened PlaybackRequests
  import opened PlaybackRuns
  import opened PlaybackTheorems
  import Base64

  // ---- The first request is played ----

  /** Connection 0 carried one script, its device has played it, and nobody has read its reports yet. */
  ghost predicate PlayedUnread(s: State, t: TaskId, chunkCount: nat, payload: seq<byte>) {
    && OneAgent(s) && s.tasks == map[t := AGENT]
    && s.links[0].handler == Serving && s.links[0].read == 0
    && s.links[0].statuses == [Status(t, Started), Status(t, Finished(chunkCount, |payload|))]
    && s.links[0].tracker.players == map[t := Player(payload, Succeeded)]
  }

  lemma PlayedIsUnread(s: State, req: Request)
    requires s.agents == map[AGENT := 0] && s.owners == [AGENT] && s.tasks == map[req.task := AGENT]
    requires s.links == [LinkAfter(req, |Script(req)|)]
    ensures PlayedUnread(s, req.task, ChunkCount(req), req.payload)
  {
    ChunksRoundTrip(req.payload, if req.size > 0 then req.size else DEFAULT_CHUNK_SIZE);
    hide Chunks, Concat;
  }

  lemma RoutedLink(s: State, r: Req)
    requires OneAgent(s) && r < |s.requests| && s.links == [Link(true, [], 0, IDLE, true, [], 0, Serving, Some(0))]
    ensures AllRouted(s, r).links == [LinkAfter(s.requests[r], 0)]
    ensures OneAgent(AllRouted(s, r))
  {
    hide ScriptOf, Pieces;
    var script := Script(s.requests[r]);
    assert [] + script[..|script|] == script;
  }

  /** Requests `0` to `j - 1` are submitted, and request `i` of them is routed and played. */
  lemma FirstIsPlayed(subs: seq<Event>, i: nat, late: bool) returns (events: seq<Event>)
    requires i < |subs| && IsAudio(subs[i]) && forall k :: 0 <= k < |subs| ==> subs[k].Submit?
    ensures Submissions(events) == subs
    ensures var (s, req) := (Run(events), NewRequest(subs[i]));
            && PlayedUnread(s, req.task, ChunkCount(req), req.payload)
            && |s.requests| == |subs| && s.results == map[]
            && s.requests[i].task == req.task && s.requests[i].sends != []
            && s.requests[i].pc == (if late then Done(Rejected) else Waiting)
  {
    hide Run, Submissions, IsAudio, NewRequest, ScriptOf, Pieces, LinkAfter, PlayedUnread;
    AudioIsFresh(subs[i]);
    var req := NewRequest(subs[i]);
    events := AgentConnects();
    events := SubmitAll(events, subs);
    assert [] + subs == subs;
    var s := Run(events);
    assert s.requests[0 + i] == req;
    assert OneAgent(s) && s.links == [Link(true, [], 0, IDLE, true, [], 0, Serving, Some(0))] && s.tasks == map[];
    events := RouteAll(events, i);
    hide Fresh;
    RoutedLink(s, i);
    RoutedRequest(s, i);
    events := MayTimeOut(events, i, late);
    events := PlayUpTo(events, req, |Script(req)|);
    PlayedIsUnread(Run(events), req);
  }

  // ---- The second request gets the report of the first ----

  /** Nothing was played for request `j`: what connection 0 has done, it had done when `j` was submitted. */
  ghost predicate AnsweredBefore(s: State, j: Req, e: Event, links: seq<Link>) {
    && OneAgent(s) && j < |s.requests| && e.Submit? && s.requests[j] == NewRequest(e) && s.tasks == map[]
    && j in s.results && s.results[j].Completed?
    && |links| == 1 && s.links == [links[0].(read := 2)]
  }

  /** A request is submitted with the same id, and the report it finds unread answers it. */
  lemma SecondIsAnswered(events: seq<Event>, e: Event, chunkCount: nat, payload: seq<byte>) returns (longer: seq<Event>)
    requires IsAudio(e) && PlayedUnread(Run(events), e.task, chunkCount, payload) && Run(events).results == map[]
    ensures events + [e] <= longer && Submissions(longer) == Submissions(events) + [e]
    ensures AnsweredBefore(Run(longer), |Run(events).requests|, e, Run(events).links)
  {
    hide Run, Submissions, Next, IsAudio, NewRequest;
    assert e.Submit? by { AudioIsSubmitted(e); }
    var s := Run(events);
    SubmitAdds(s, e);
    longer := Then(events, e);
    var s' := Run(longer);
    hide Added;
    assert s'.(waiters := s.waiters, requests := s.requests) == s by { AddedIs(s, s', [e]); }
    longer := ReadReports(longer, e.task, chunkCount, |payload|);
    AnswersWaiter(s', e.task, chunkCount, |payload|);
  }

  lemma AudioIsSubmitted(e: Event)
    requires IsAudio(e)
    ensures e.Submit?
  {}

  lemma AddedIs(s: State, s': State, subs: seq<Event>)
    requires Added(s, s', subs)
    ensures s'.(waiters := s.waiters, requests := s.requests) == s
  {}

  lemma AnswersWaiter(s: State, t: TaskId, chunkCount: nat, byteCount: nat)
    requires |s.links| == 1 && t in s.waiters && s.tasks == map[t := AGENT]
    ensures var s' := Reported(s, t, chunkCount, byteCount);
            && s'.agents == s.agents && s'.owners == s.owners && s'.requests == s.requests && s'.tasks == map[]
            && s'.links == [s.links[0].(read := 2)]
            && s.waiters[t] in s'.results && s'.results[s.waiters[t]] == Completed(0, chunkCount, byteCount)
  {
    assert s.tasks - {t} == map[];
  }

  /** The second request is routed like any other; its answer has been waiting for it. */
  lemma SecondIsAccepted(events: seq<Event>, j: Req, e: Event, links: seq<Link>)
    returns (before: seq<Event>, longer: seq<Event>)
    requires IsAudio(e) && AnsweredBefore(Run(events), j, e, links)
    ensures Continues(events, before) && longer == before + [Advance(j)] && Continues(events, longer)
    ensures j < |Run(before).requests| && Run(before).requests[j].pc == Waiting
    ensures |Run(before).links| == 1 && Run(longer).links == Run(before).links
    ensures links != [] && Run(before).links[0].statuses == links[0].statuses
    ensures Run(before).links[0].tracker == links[0].tracker
    ensures IsAccepted(Run(longer), j)
  {
    hide Run, Submissions, Next, IsAudio, NewRequest;
    AudioIsFresh(e);
    var s := Run(events);
    before := RouteAll(events, j);
    hide Fresh;
    RoutedRequest(s, j);
    RoutedKeepsDevice(s, j);
    hide AllRouted;
    longer := Then(before, Advance(j));
    AcceptsWhatWaits(Run(before), j);
  }

  lemma RoutedKeepsDevice(s: State, r: Req)
    requires r < |s.requests| && |s.links| == 1
    ensures var (l, l') := (s.links[0], AllRouted(s, r).links[0]);
            |AllRouted(s, r).links| == 1 && l'.statuses == l.statuses && l'.tracker == l.tracker
  {
    hide Pieces, ScriptOf;
  }

  lemma AcceptsWhatWaits(s: State, r: Req)
    requires r < |s.requests| && s.requests[r].pc.Waiting? && r in s.results && s.results[r].Completed?
    ensures IsAccepted(Next(s, Advance(r)), r) && Next(s, Advance(r)).links == s.links
  {
    hide Pieces;
  }

  // ---- The whole run ----

  lemma SubmitKeepsLinks(s: State, e: Event)
    requires e.Submit?
    ensures Next(s, e).links == s.links
  {
    hide Base64.Decode;
  }

  lemma {:induction false} SubmitsKeepLinks(events: seq<Event>, more: seq<Event>)
    requires forall k :: 0 <= k < |more| ==> more[k].Submit?
    ensures Run(events + more).links == Run(events).links
    decreases |more|
  {
    hide *;
    if more == [] {
      assert events + more == events;
    } else {
      var (init, e) := (more[..|more| - 1], more[|more| - 1]);
      SubmitsKeepLinks(events, init);
      RunSnoc(events + init, e);
      assert more == init + [e];
      assert events + (init + [e]) == (events + init) + [e];
      SubmitKeepsLinks(Run(events + init), e);
    }
  }

  lemma {:induction false} SubmittedAtIs(events: seq<Event>, i: nat)
    requires i < |events| && events[i].Submit?
    ensures |Submissions(events[..i])| < |Submissions(events)|
    ensures SubmittedAt(events, |Submissions(events[..i])|) == i
  {
    var init := events[..|events| - 1];
    SubmissionsPrefix(events, i);
    if i < |init| {
      assert init[..i] == events[..i];
      SubmittedAtIs(init, i);
    }
  }

  /**
   A request that was still waiting after `before`, and whose agent's connection
   reports nothing from its submission on, is not delivered, whatever it was answered.
   */
  lemma NeverDelivered(events: seq<Event>, before: seq<Event>, j: Req)
    requires before < events && j < |Submissions(events)|
    requires j < |Run(before).requests| && Run(before).requests[j].pc == Waiting
    requires forall k :: |before| < k < |events| ==> events[k].Submit?
    requires Run(events[..|before| + 1]).links == Run(before).links && |Run(before).links| == 1
    requires |Run(before).links[0].statuses| <= StatusCount(Run(events[..SubmittedAt(events, j)]), 0)
    ensures !IsDelivered(events, j)
  {
    hide Run, Submissions;
    forall n: nat ensures !DeliveredBy(events, j, n) {
      if n <= |before| {
        NotYetAccepted(events, before, j, n);
      } else if n <= |events| {
        LinksAfter(events, before, n);
        NothingReported(events, j, n);
      }
    }
  }

  lemma NothingReported(events: seq<Event>, j: Req, n: nat)
    requires j < |Submissions(events)| && n <= |events| && |Run(events[..n]).links| == 1
    requires |Run(events[..n]).links[0].statuses| <= StatusCount(Run(events[..SubmittedAt(events, j)]), 0)
    ensures !DeliveredBy(events, j, n)
  {
    hide Run, Submissions, PlayerOn, StatusCount, Pieces;
  }

  lemma NotYetAccepted(events: seq<Event>, before: seq<Event>, j: Req, n: nat)
    requires before <= events && n <= |before|
    requires j < |Run(before).requests| && Run(before).requests[j].pc == Waiting
    ensures !IsAccepted(Run(events[..n]), j)
  {
    hide Run;
    assert before[..n] == events[..n];
    RunKeepsPlans(before, n);
  }

  lemma LinksAfter(events: seq<Event>, before: seq<Event>, n: nat)
    requires before <= events && |before| < n <= |events|
    requires forall k :: |before| < k < |events| ==> events[k].Submit?
    ensures Run(events[..n]).links == Run(events[..|before| + 1]).links
  {
    hide Run;
    var (first, more) := (events[..|before| + 1], events[|before| + 1..n]);
    SubmitsKeepLinks(first, more);
    assert first + more == events[..n];
  }

  /** Every player for an id, on any connection, has received `payload`. */
  ghost predicate OnlyHeard(s: State, payload: seq<byte>) {
    forall c, t :: 0 <= c < |s.links| && t in s.links[c].tracker.players ==>
      s.links[c].tracker.players[t].received == payload
  }

  /**
   For any submissions and any two of them that carry audio with one id there is a
   run that answers the second "accepted" with a report the device made before the
   second was submitted. The first may still be waiting, or may have timed out.
   */
  lemma ReuseBreaksDelivery(subs: seq<Event>, i: nat, j: nat, late: bool) returns (events: seq<Event>)
    requires i < j < |subs| && forall k :: 0 <= k < |subs| ==> subs[k].Submit?
    requires IsAudio(subs[i]) && IsAudio(subs[j]) && subs[i].task == subs[j].task
    ensures Submissions(events) == subs
    ensures IsAccepted(Run(events), j) && !IsDelivered(events, j)
    ensures OnlyHeard(Run(events), Base64.Decode(subs[i].audio64).value)
    ensures var first := Run(events[..SubmittedAt(events, j)]).requests[..];
            |first| == j && first[i].sends != [] && first[i].pc == (if late then Done(Rejected) else Waiting)
  {
    AudioIsFresh(subs[i]);
    AudioIsSubmitted(subs[j]);
    hide *;
    var req := NewRequest(subs[i]);
    var played := FirstIsPlayed(subs[..j], i, late);
    assert subs[..j][i] == subs[i];
    PlayedIs(Run(played), req.task, ChunkCount(req), req.payload);
    var answered := SecondIsAnswered(played, subs[j], ChunkCount(req), req.payload);
    var before, accepted := SecondIsAccepted(answered, j, subs[j], Run(played).links);
    events := SubmitAll(accepted, subs[j + 1..]);
    ContinuesIs(answered, before);
    ContinuesIs(answered, accepted);
    SubmissionsOfAll(subs, j);
    PartsOfRun(played, subs[j], answered, before, accepted, events, Advance(j), subs[j + 1..]);
    FirstHalf(events, played, subs[j]);
    StatusCountIs(Run(played));
    NeverDelivered(events, before, j);
    SubmitsKeepLinks(accepted, subs[j + 1..]);
    OneHeard(Run(events), req.task, req.payload);
    StillAccepted(Run(accepted), Run(events), subs[j + 1..], j);
  }

  lemma PlayedIs(s: State, t: TaskId, chunkCount: nat, payload: seq<byte>)
    requires PlayedUnread(s, t, chunkCount, payload)
    ensures |s.links| == 1 && s.links[0].tracker.players == map[t := Player(payload, Succeeded)]
  {}

  lemma StatusCountIs(s: State)
    requires |s.links| == 1
    ensures StatusCount(s, 0) == |s.links[0].statuses|
  {}

  lemma OneHeard(s: State, t: TaskId, payload: seq<byte>)
    requires |s.links| == 1 && s.links[0].tracker.players == map[t := Player(payload, Succeeded)]
    ensures OnlyHeard(s, payload)
  {}

  lemma StillAccepted(s: State, s': State, subs: seq<Event>, j: Req)
    requires Added(s, s', subs) && IsAccepted(s, j)
    ensures IsAccepted(s', j)
  {}

  lemma ContinuesIs(events: seq<Event>, longer: seq<Event>)
    requires Continues(events, longer)
    ensures events <= longer && Submissions(longer) == Submissions(events)
  {}

  lemma SubmissionsOfAll(subs: seq<Event>, j: nat)
    requires j < |subs|
    ensures subs[..j] + [subs[j]] + subs[j + 1..] == subs
  {}

  lemma PrefixOfPrefix<T>(a: seq<T>, b: seq<T>, c: seq<T>)
    requires a <= b <= c
    ensures a <= c
  {}

  lemma PartsOfRun(played: seq<Event>, e: Event, answered: seq<Event>, before: seq<Event>, accepted: seq<Event>,
                   events: seq<Event>, last: Event, rest: seq<Event>)
    requires played + [e] <= answered && answered <= before
    requires accepted == before + [last] && events == accepted + rest
    requires forall k :: 0 <= k < |rest| ==> rest[k].Submit?
    ensures played + [e] <= events && before < events && events[..|before| + 1] == accepted
    ensures forall k :: |before| < k < |events| ==> events[k].Submit?
  {
    PrefixOfPrefix(played + [e], answered, before);
    PrefixOfPrefix(played + [e], before, events);
    forall k | |before| < k < |events| ensures events[k].Submit? {
      assert events[k] == rest[k - |accepted|];
    }
  }

  lemma FirstHalf(events: seq<Event>, played: seq<Event>, e: Event)
    requires played + [e] <= events && e.Submit?
    ensures var j := |Submissions(played)|;
            j < |Submissions(events)| && SubmittedAt(events, j) == |played| && events[..|played|] == played
  {
    hide Submissions;
    assert events[|played|] == (played + [e])[|played|] == e;
    assert events[..|played|] == played;
    SubmittedAtIs(events, |played|);
  }

  // ---- Which lists of submissions are always delivered ----

  /** No two of the submissions carry audio with the same id. */
  ghost predicate UniqueIds(subs: seq<Event>) {
    forall i, j :: 0 <= i < j < |subs| && IsAudio(subs[i]) && IsAudio(subs[j]) ==> subs[i].task != subs[j].task
  }

  lemma UniqueIdsAreOrderly(events: seq<Event>, t: TaskId)
    requires UniqueIds(Submissions(events))
    ensures Orderly(events, t)
  {
    hide Submissions, Orderly, Base64.Decode;
    AloneIsOrderly(events, t);
  }

  lemma OrderlyRunsDeliver(events: seq<Event>)
    requires forall t :: Orderly(events, t)
    ensures AllDelivered(events)
  {
    hide Run, Orderly, IsDelivered;
    forall r | IsAccepted(Run(events), r) ensures IsDelivered(events, r) {
      ExactDelivery(events, r);
    }
  }

  /**
   Whatever the clients submit: every run with these submissions delivers what it
   accepts if and only if no two of them carry audio with the same id.
   */
  lemma UniqueIdsDeliverExactly(subs: seq<Event>)
    requires forall k :: 0 <= k < |subs| ==> subs[k].Submit?
    ensures (forall events :: Submissions(events) == subs ==> AllDelivered(events)) <==> UniqueIds(subs)
  {
    hide Run, Submissions, IsAudio, IsDelivered, OnlyHeard, Orderly;
    if UniqueIds(subs) {
      forall events | Submissions(events) == subs ensures AllDelivered(events) {
        forall t ensures Orderly(events, t) {
          UniqueIdsAreOrderly(events, t);
        }
        OrderlyRunsDeliver(events);
      }
    } else {
      var i, j :| 0 <= i < j < |subs| && IsAudio(subs[i]) && IsAudio(subs[j]) && subs[i].task == subs[j].task;
      var events := ReuseBreaksDelivery(subs, i, j, false);
    }
  }

  // ---- Which earlier answers make an id safe to use again ----

  /** What the client knows, and the gateway did, about an earlier request. */
  datatype Standing = Unanswered | AnsweredAccepted | RejectedUnsent | RejectedSent

  function StandingOf(req: Request): Standing {
    if !req.pc.Done? then Unanswered
    else if req.pc.reply.Accepted? then AnsweredAccepted
    else if req.sends == [] then RejectedUnsent
    else RejectedSent
  }

  /** Audio is submitted with a used id only when every earlier request with it stands as allowed. */
  ghost predicate ReusesOnly(events: seq<Event>, allowed: set<Standing>) {
    forall r, q :: 0 <= q < r < |Submissions(events)| ==> ReuseIsAllowed(events, allowed, q, r)
  }

  ghost predicate ReuseIsAllowed(events: seq<Event>, allowed: set<Standing>, q: Req, r: Req)
    requires q < r < |Submissions(events)|
  {
    var requests := Run(events[..SubmittedAt(events, r)]).requests;
    IsAudio(Submissions(events)[r]) && q < |requests| && requests[q].task == Submissions(events)[r].task ==>
      StandingOf(requests[q]) in allowed
  }

  const SAFE: set<Standing> := {AnsweredAccepted, RejectedUnsent}

  lemma SafeReuseIsOrderly(events: seq<Event>, allowed: set<Standing>, t: TaskId)
    requires ReusesOnly(events, allowed) && allowed <= SAFE
    ensures Orderly(events, t)
  {
    hide Run, Submissions, Base64.Decode;
    forall i | 0 <= i < |events| && IsAudioOf(events[i], t) ensures AllSettled(Run(events[..i]).requests, t) {
      SubmissionIs(events, i);
      SubmittedAtIs(events, i);
      RequestsAreSubmissions(events[..i]);
      var requests := Run(events[..i]).requests;
      forall q | 0 <= q < |requests| && requests[q].task == t ensures Settled(requests[q]) {
        assert ReuseIsAllowed(events, allowed, q, |requests|);
      }
    }
  }

  const AUDIO_A := "QQ=="
  const AUDIO_B := "Qg=="
  const TWICE := [Submit("t", AUDIO_A, 0), Submit("t", AUDIO_B, 0)]

  /** Two submissions with one id, of the single bytes 65 and 66. */
  lemma TwiceIsAudio()
    ensures forall k :: 0 <= k < |TWICE| ==> TWICE[k].Submit? && IsAudioOf(TWICE[k], "t")
    ensures Base64.Decode(AUDIO_A) == Some([65]) && Base64.Decode(AUDIO_B) == Some([66])
  {
    assert Base64.CharToSextet('Q') == Some(16);
    assert Base64.CharToSextet('g') == Some(32);
  }

  lemma OneReuse(events: seq<Event>, allowed: set<Standing>)
    requires |Submissions(events)| == 2
    requires var requests := Run(events[..SubmittedAt(events, 1)]).requests;
             |requests| == 1 && StandingOf(requests[0]) in allowed
    ensures ReusesOnly(events, allowed)
  {
    hide Run, Submissions, StandingOf, IsAudio;
    forall r, q | 0 <= q < r < |Submissions(events)| ensures ReuseIsAllowed(events, allowed, q, r) {
      assert q == 0 && r == 1;
    }
  }

  lemma UnsafeReuseBreaks(allowed: set<Standing>, late: bool) returns (events: seq<Event>)
    requires (if late then RejectedSent else Unanswered) in allowed
    ensures ReusesOnly(events, allowed) && !AllDelivered(events)
    ensures IsAccepted(Run(events), 1) && OnlyHeard(Run(events), [65])
    ensures Submissions(events) == TWICE
  {
    hide Run, Submissions, IsAudio, IsDelivered, OnlyHeard;
    TwiceIsAudio();
    events := ReuseBreaksDelivery(TWICE, 0, 1, late);
    OneReuse(events, allowed);
  }

  /**
   Ids may be used again after an acceptance, or after a rejection that sent nothing,
   and after nothing else: every run that reuses ids only in the allowed standings
   delivers what it accepts if and only if these are the only standings allowed.
   */
  lemma ReuseIsSafeExactly(allowed: set<Standing>)
    ensures (forall events :: ReusesOnly(events, allowed) ==> AllDelivered(events)) <==> allowed <= SAFE
  {
    hide Run, ReusesOnly, AllDelivered, OnlyHeard, IsAccepted, Orderly;
    if allowed <= SAFE {
      forall events | ReusesOnly(events, allowed) ensures AllDelivered(events) {
        forall t ensures Orderly(events, t) {
          SafeReuseIsOrderly(events, allowed, t);
        }
        OrderlyRunsDeliver(events);
      }
    } else {
      var standing :| standing in allowed && standing !in SAFE;
      var events := UnsafeReuseBreaks(allowed, standing.RejectedSent?);
    }
  }

  // ---- Delivery happens ----

  /** The only request is submitted, routed and played. */
  lemma OnlyIsPlayed(e: Event) returns (events: seq<Event>)
    requires IsAudio(e) && e.Submit?
    ensures Submissions(events) == [e]
    ensures var (s, req) := (Run(events), NewRequest(e));
            && PlayedUnread(s, e.task, ChunkCount(req), req.payload)
            && |s.requests| == 1 && s.requests[0].pc == Waiting && e.task in s.waiters && s.waiters[e.task] == 0
  {
    hide Run, Submissions, Next, IsAudio, NewRequest, ScriptOf, Pieces, LinkAfter, PlayedUnread;
    AudioIsFresh(e);
    var req := NewRequest(e);
    var idle := AgentConnects();
    var s0 := Run(idle);
    SubmitAdds(s0, e);
    events := Then(idle, e);
    var s := Run(events);
    AddedIs(s0, s, [e]);
    hide Added;
    assert s.requests == [req];
    events := RouteAll(events, 0);
    hide Fresh;
    RoutedLink(s, 0);
    RoutedRequest(s, 0);
    events := PlayUpTo(events, req, |Script(req)|);
    PlayedIsUnread(Run(events), req);
  }

  /** Any audio, in pieces of any size, is delivered and accepted in some run. */
  lemma DeliveryHappens(e: Event) returns (events: seq<Event>)
    requires IsAudio(e)
    ensures Submissions(events) == [e] && IsAccepted(Run(events), 0) && IsDelivered(events, 0)
  {
    hide Run, Submissions, Next, IsAudio, NewRequest, ScriptOf, Pieces, Reported, IsDelivered, IsAccepted, Orderly;
    AudioIsSubmitted(e);
    var req := NewRequest(e);
    events := OnlyIsPlayed(e);
    var s := Run(events);
    events := ReadReports(events, e.task, ChunkCount(req), |req.payload|);
    AnswersWaiter(s, e.task, ChunkCount(req), |req.payload|);
    AcceptsWhatWaits(Run(events), 0);
    events := Then(events, Advance(0));
    UniqueIdsAreOrderly(events, e.task);
    AcceptedWasAudio(events, 0);
    ExactDelivery(events, 0);
  }
}
