/**
 What `/control` promises when it answers "accepted": the audio has been played.
 */
module PlaybackTheorems {
  import opened Common
  import opened DeviceAgent
  import opened Playback
  import opened PlaybackLinks
  import opened PlaybackRequests
  import opened PlaybackRuns
  import opened PlaybackWaiters
  import Base64

  // ---- A device that handles a whole script hears the payload ----

  /** The chunk commands for the first `n` pieces. */
  function ChunkCommands(task: TaskId, parts: seq<seq<byte>>, n: nat): seq<Command>
    requires n <= |parts|
  {
    if n == 0 then [] else ChunkCommands(task, parts, n - 1) + [Chunk(task, Base64.Encode(parts[n - 1]))]
  }

  lemma {:induction false} ChunkCommandsAreScript(task: TaskId, payload: seq<byte>, size: nat, n: nat)
    requires n <= |Pieces(payload, size)|
    ensures ScriptOf(task, payload, size)[1..n + 1] == ChunkCommands(task, Pieces(payload, size), n)
  {
    hide Pieces, Base64.Encode;
    if n > 0 {
      var script := ScriptOf(task, payload, size);
      assert script[n] == Chunk(task, Base64.Encode(Pieces(payload, size)[n - 1]));
      hide ScriptOf;
      ChunkCommandsAreScript(task, payload, size, n - 1);
      assert script[1..n + 1] == script[1..n] + [script[n]];
    }
  }

  lemma EncodedIsHeard(cmds: seq<Command>, task: TaskId, part: seq<byte>)
    ensures Heard(cmds + [Chunk(task, Base64.Encode(part))]) == Heard(cmds) + part
  {
    hide *;
    Base64.RoundTrip(part);
    HeardSnoc(cmds, Chunk(task, Base64.Encode(part)));
  }

  lemma {:induction false} ChunkCommandsAreHeard(task: TaskId, parts: seq<seq<byte>>, n: nat)
    requires n <= |parts|
    ensures Heard(ChunkCommands(task, parts, n)) == Concat(parts[..n])
  {
    hide Base64.Encode, Base64.Decode;
    if n > 0 {
      hide Heard, Concat;
      ChunkCommandsAreHeard(task, parts, n - 1);
      EncodedIsHeard(ChunkCommands(task, parts, n - 1), task, parts[n - 1]);
      assert parts[..n] == parts[..n - 1] + [parts[n - 1]];
      ConcatSnoc(parts[..n - 1], parts[n - 1]);
    }
  }

  /** A device that handles a whole script hears the payload. */
  lemma ScriptIsHeard(task: TaskId, payload: seq<byte>, size: nat)
    ensures var n := |Pieces(payload, size)|;
            Heard(ScriptOf(task, payload, size)[1..n + 1]) == payload
  {
    var parts := Pieces(payload, size);
    ChunkCommandsAreScript(task, payload, size, |parts|);
    ChunkCommandsAreHeard(task, parts, |parts|);
    assert parts[..|parts|] == parts;
    ChunksRoundTrip(payload, if size > 0 then size else DEFAULT_CHUNK_SIZE);
  }

  // ---- Exact delivery ----

  predicate IsAccepted(s: State, r: Req) {
    r < |s.requests| && s.requests[r].pc.Done? && s.requests[r].pc.reply.Accepted?
  }

  /** How many statuses connection `c` had sent. */
  function StatusCount(s: State, c: Conn): nat {
    if c < |s.links| then |s.links[c].statuses| else 0
  }

  /** The player of `t` on connection `c`, if it ever had one. */
  function PlayerOn(s: State, c: Conn, t: TaskId): Option<Player> {
    if c < |s.links| then PlayerAt(s.links[c].tracker, t) else None
  }

  /**
   Between `before` and `s` the audio of request `r` was played by connection `c`:
   it is a connection of the agent the reply names, its player for the id received
   exactly the payload and exited with success, and it reported so, with the counts
   of the reply, after `before`. No other connection's player for the id changed.
   */
  ghost predicate PlayedExactly(before: State, s: State, r: Req, c: Conn)
    requires r < |s.requests| && c < |s.links|
  {
    var req := s.requests[r];
    && c < |s.owners| && s.owners[c] == req.agent
    && PlayerOn(s, c, req.task) == Some(Player(req.payload, Succeeded))
    && (exists i :: StatusCount(before, c) <= i < |s.links[c].statuses|
                    && s.links[c].statuses[i] == Status(req.task, Finished(ChunkCount(req), |req.payload|)))
    && forall d :: 0 <= d < |s.links| && d != c ==> PlayerOn(s, d, req.task) == PlayerOn(before, d, req.task)
  }

  /** After the first `n` events request `r` is accepted, and its audio was played since it was submitted. */
  ghost predicate DeliveredBy(events: seq<Event>, r: Req, n: nat) {
    && n <= |events| && r < |Submissions(events)|
    && IsAccepted(Run(events[..n]), r)
    && exists c :: 0 <= c < |Run(events[..n]).links|
                   && PlayedExactly(Run(events[..SubmittedAt(events, r)]), Run(events[..n]), r, c)
  }

  ghost predicate IsDelivered(events: seq<Event>, r: Req) {
    exists n :: DeliveredBy(events, r, n)
  }

  /** Every request the run has answered "accepted" was delivered. */
  ghost predicate AllDelivered(events: seq<Event>) {
    forall r :: IsAccepted(Run(events), r) ==> IsDelivered(events, r)
  }

  lemma FinishedIsExact(l: Link, t: TaskId, i: nat, req: Request)
    requires i < |l.statuses| && req.task == t && ScriptFinished(l, t, i, req)
    ensures l.statuses[i] == Status(t, Finished(ChunkCount(req), |req.payload|))
    ensures PlayerAt(l.tracker, t) == Some(Player(req.payload, Succeeded))
  {
    ScriptIsHeard(t, req.payload, req.size);
    hide ScriptOf, Pieces, Heard, Opened;
  }

  /** What the current request of an id was accepted for has been played. */
  lemma CurrentIsDelivered(before: State, s: State, t: TaskId, r: Req) returns (c: Conn)
    requires Inv(s) && IdOk(s, t, Some(r), MarksOf(before.links, t)) && IsAccepted(s, r)
    ensures c < |s.links| && PlayedExactly(before, s, r, c)
  {
    hide Inv, IdOk, LinkSane, Quiet;
    var marks := MarksOf(before.links, t);
    IdGives(s, t, Some(r), marks);
    c := AcceptedIsDelivered(s, t, r, marks);
    var i :| MarkAt(marks, c).heard <= i < |s.links[c].statuses| && ScriptFinished(s.links[c], t, i, s.requests[r]);
    FinishedIsExact(s.links[c], t, i, s.requests[r]);
    hide ScriptFinished, ScriptOf, Pieces, Of;
    MarkIsBefore(before, t, c);
    forall d | 0 <= d < |s.links| && d != c ensures PlayerOn(s, d, t) == PlayerOn(before, d, t) {
      MarkIsBefore(before, t, d);
    }
  }

  lemma MarkIsBefore(before: State, t: TaskId, c: Conn)
    ensures MarkAt(MarksOf(before.links, t), c).heard == StatusCount(before, c)
    ensures MarkAt(MarksOf(before.links, t), c).player == PlayerOn(before, c, t)
  {}

  /** The current request of an id is its last submission of audio. */
  lemma {:induction false} CurrentIsLast(events: seq<Event>, t: TaskId)
    ensures |Submissions(events)| == |Run(events).requests|
    ensures Current(events, t).None? ==>
              && MarksAt(events, t) == []
              && forall k :: 0 <= k < |Submissions(events)| ==> !IsAudioOf(Submissions(events)[k], t)
    ensures Current(events, t).Some? ==>
              var r := Current(events, t).value;
              && r < |Submissions(events)| && IsAudioOf(Submissions(events)[r], t)
              && (forall k :: r < k < |Submissions(events)| ==> !IsAudioOf(Submissions(events)[k], t))
              && MarksAt(events, t) == MarksOf(Run(events[..SubmittedAt(events, r)]).links, t)
  {
    hide Run, Base64.Decode, MarksOf;
    RequestsAreSubmissions(events);
    if events != [] {
      var init := events[..|events| - 1];
      CurrentIsLast(init, t);
      if Current(events, t).Some? {
        SubmittedEarlier(events, Current(events, t).value);
      }
    }
  }

  lemma SubmittedEarlier(events: seq<Event>, r: Req)
    requires events != [] && r < |Submissions(events)|
    ensures var init := events[..|events| - 1];
            && (r < |Submissions(init)| ==>
                  && Submissions(events)[r] == Submissions(init)[r]
                  && SubmittedAt(events, r) == SubmittedAt(init, r)
                  && events[..SubmittedAt(events, r)] == init[..SubmittedAt(init, r)])
            && (r >= |Submissions(init)| ==> r == |Submissions(init)| && events[..SubmittedAt(events, r)] == init)
  {}

  /** At the end of the run, or once it was answered, an accepted request has returned for good. */
  lemma AcceptedWasAudio(events: seq<Event>, r: Req)
    requires IsAccepted(Run(events), r)
    ensures r < |Submissions(events)| && IsAudioOf(Submissions(events)[r], Run(events).requests[r].task)
    ensures Base64.Decode(Submissions(events)[r].audio64) == Some(Run(events).requests[r].payload)
  {
    hide Run, Base64.Decode, IsAudio;
    RequestsAreSubmissions(events);
    assert Asked(Run(events).requests[r], Submissions(events)[r]);
  }

  /** A request that is no longer the current one of its id had returned before the last event. */
  lemma ReturnedEarlier(events: seq<Event>, r: Req, t: TaskId)
    requires events != [] && Orderly(events, t) && Current(events, t) != Some(r)
    requires r < |Run(events[..|events| - 1]).requests| && Run(events[..|events| - 1]).requests[r].task == t
    ensures Run(events[..|events| - 1]).requests[r].pc.Done?
  {
    var (init, e) := (events[..|events| - 1], events[|events| - 1]);
    assert IsAudioOf(e, t) ==> AllSettled(Run(init).requests, t);
    assert !IsAudioOf(e, t) ==> Current(init, t) != Some(r);
    OrderlyPrefix(events, t, |init|);
    hide *;
    if IsAudioOf(e, t) {
      SettledAt(Run(init).requests, t, r);
    } else {
      OrderlyIdsStayOk(init, t);
      OthersAreSettled(Run(init), t, Current(init, t), MarksAt(init, t), r);
    }
  }

  /** A request that is still to come was not accepted. */
  lemma AcceptedIsOlder(events: seq<Event>, r: Req, t: TaskId)
    requires events != [] && IsAccepted(Run(events), r) && Current(events, t) != Some(r)
    requires Run(events).requests[r].task == t
    ensures r < |Run(events[..|events| - 1]).requests|
  {
    var init := events[..|events| - 1];
    AcceptedWasAudio(events, r);
    RequestsAreSubmissions(init);
    RequestsAreSubmissions(events);
    hide Run, IsAudio, IsAccepted;
  }

  lemma AcceptedEarlier(events: seq<Event>, r: Req)
    requires events != [] && IsAccepted(Run(events), r)
    requires var t := Run(events).requests[r].task; Orderly(events, t) && Current(events, t) != Some(r)
    ensures var init := events[..|events| - 1];
            && IsAccepted(Run(init), r) && Run(init).requests[r] == Run(events).requests[r]
            && Orderly(init, Run(init).requests[r].task)
  {
    var init := events[..|events| - 1];
    var t := Run(events).requests[r].task;
    AcceptedIsOlder(events, r, t);
    RunKeepsPlans(events, |init|);
    PlanAt(Run(init).requests, Run(events).requests, r);
    hide Run, Orderly, PlansKept, Current;
    ReturnedEarlier(events, r, t);
    OrderlyPrefix(events, t, |init|);
  }

  lemma PlanAt(a: seq<Request>, b: seq<Request>, r: Req)
    requires PlansKept(a, b) && r < |a|
    ensures r < |b| && b[r].task == a[r].task && (a[r].pc.Done? ==> b[r] == a[r])
  {}

  lemma SettledAt(requests: seq<Request>, t: TaskId, r: Req)
    requires AllSettled(requests, t) && r < |requests| && requests[r].task == t
    ensures requests[r].pc.Done?
  {}

  lemma OthersAreSettled(s: State, t: TaskId, o: Option<Req>, marks: seq<Mark>, r: Req)
    requires IdOk(s, t, o, marks) && r < |s.requests| && s.requests[r].task == t && o != Some(r)
    ensures s.requests[r].pc.Done?
  {
    hide WiresOk, OwnOk;
  }

  lemma {:induction false} DeliveredSometime(events: seq<Event>, r: Req) returns (n: nat)
    requires IsAccepted(Run(events), r) && Orderly(events, Run(events).requests[r].task)
    ensures DeliveredBy(events, r, n)
    ensures Current(events, Run(events).requests[r].task) == Some(r) ==> n == |events|
    decreases |events|
  {
    hide Run, IsAudio, Orderly, PlayedExactly, IdOk, Inv;
    var t := Run(events).requests[r].task;
    AcceptedWasAudio(events, r);
    if Current(events, t) == Some(r) {
      n := |events|;
      assert events[..n] == events;
      CurrentIsLast(events, t);
      OrderlyIdsStayOk(events, t);
      InvariantOfRuns(events);
      var c := CurrentIsDelivered(Run(events[..SubmittedAt(events, r)]), Run(events), t, r);
    } else {
      NotAtFirst(events, r);
      var init := events[..|events| - 1];
      AcceptedEarlier(events, r);
      n := DeliveredSometime(init, r);
      SubmittedEarlier(events, r);
      DeliveredLater(events, r, n);
    }
  }

  lemma NotAtFirst(events: seq<Event>, r: Req)
    requires IsAccepted(Run(events), r)
    ensures events != []
  {}

  lemma DeliveredLater(events: seq<Event>, r: Req, n: nat)
    requires events != [] && DeliveredBy(events[..|events| - 1], r, n)
    ensures DeliveredBy(events, r, n)
  {
    hide Run, PlayedExactly, IsAccepted;
    var init := events[..|events| - 1];
    SubmissionsPrefix(events, |init|);
    SubmittedEarlier(events, r);
    assert init[..n] == events[..n];
  }

  /**
   Whatever agents connect, replace each other, drop or fail meanwhile, and whatever
   other ids are used for: when a request is answered "accepted" and its id is used
   in order, then by its answer one connection of the named agent has played exactly
   the bytes its base64 decodes to, and has reported it since the submission.
   */
  lemma ExactDelivery(events: seq<Event>, r: Req)
    requires IsAccepted(Run(events), r) && Orderly(events, Run(events).requests[r].task)
    ensures var req := Run(events).requests[r];
            && r < |Submissions(events)| && Submissions(events)[r].Submit? && Submissions(events)[r].task == req.task
            && Base64.Decode(Submissions(events)[r].audio64) == Some(req.payload)
            && req.pc.reply == Accepted(req.agent, ChunkCount(req), |req.payload|)
    ensures IsDelivered(events, r)
    ensures Current(events, Run(events).requests[r].task) == Some(r) ==> DeliveredBy(events, r, |events|)
  {
    hide Run, Base64.Decode, Orderly, DeliveredBy, Pieces, Inv;
    AcceptedWasAudio(events, r);
    var n := DeliveredSometime(events, r);
    InvariantOfRuns(events);
    RepliesAreExact(Run(events), r);
  }

  lemma RepliesAreExact(s: State, r: Req)
    requires Inv(s) && IsAccepted(s, r)
    ensures s.requests[r].pc.reply == Accepted(s.requests[r].agent, ChunkCount(s.requests[r]), |s.requests[r].payload|)
  {
    hide WaitersOk, LinksSane, OnceOk, AgentsOk, Pieces;
  }

  // ---- One id, one submission ----

  /** Every other submission with this id carries no audio. */
  ghost predicate AloneWithItsId(events: seq<Event>, r: Req)
    requires r < |Submissions(events)| && Submissions(events)[r].Submit?
  {
    forall q :: 0 <= q < |Submissions(events)| && q != r ==>
      !IsAudioOf(Submissions(events)[q], Submissions(events)[r].task)
  }

  lemma AloneIsOrderly(events: seq<Event>, t: TaskId)
    requires forall q, r :: 0 <= q < r < |Submissions(events)| ==>
               !(IsAudioOf(Submissions(events)[q], t) && IsAudioOf(Submissions(events)[r], t))
    ensures Orderly(events, t)
  {
    hide Run, Base64.Decode;
    forall i | 0 <= i < |events| && IsAudioOf(events[i], t) ensures AllSettled(Run(events[..i]).requests, t) {
      SubmissionIs(events, i);
      SubmissionsPrefix(events, i);
      RequestsAreSubmissions(events[..i]);
      var requests := Run(events[..i]).requests;
      forall q | 0 <= q < |requests| && requests[q].task == t ensures Settled(requests[q]) {
        assert Asked(requests[q], Submissions(events[..i])[q]);
        assert Submissions(events[..i])[q] == Submissions(events)[q];
      }
    }
  }

  /** Before the first submission of audio with an id no connection has a player for it. */
  lemma NobodyHasPlayed(events: seq<Event>, t: TaskId, d: Conn)
    requires forall k :: 0 <= k < |Submissions(events)| ==> !IsAudioOf(Submissions(events)[k], t)
    ensures PlayerOn(Run(events), d, t) == None
  {
    hide Run, IsAudio, IdOk, LinkSane, Quiet;
    CurrentIsLast(events, t);
    AloneIsOrderly(events, t);
    OrderlyIdsStayOk(events, t);
    if d < |Run(events).links| {
      UnusedAt(Run(events), t, None, [], d);
    }
  }

  /**
   A request whose id no other submission of audio uses, whatever else the run does
   with other ids: when it is accepted its audio was played exactly, and no other
   connection ever had a player for its id.
   */
  lemma ExactDeliveryAlone(events: seq<Event>, r: Req)
    requires IsAccepted(Run(events), r)
    requires r < |Submissions(events)| && Submissions(events)[r].Submit? && AloneWithItsId(events, r)
    ensures DeliveredBy(events, r, |events|)
    ensures var s := Run(events);
            exists c :: 0 <= c < |s.links| && PlayedExactly(Run(events[..SubmittedAt(events, r)]), s, r, c)
                        && forall d :: 0 <= d < |s.links| && d != c ==>
                            s.requests[r].task !in s.links[d].tracker.players
  {
    hide Run, IsAudio, Orderly;
    AcceptedWasAudio(events, r);
    var t := Run(events).requests[r].task;
    AloneIsOrderly(events, t);
    CurrentIsLast(events, t);
    ExactDelivery(events, r);
    assert events[..|events|] == events;
    var before := events[..SubmittedAt(events, r)];
    SubmissionsBefore(events, r);
    var s := Run(events);
    var c :| 0 <= c < |s.links| && PlayedExactly(Run(before), s, r, c);
    forall d | 0 <= d < |s.links| && d != c ensures t !in s.links[d].tracker.players {
      NobodyHasPlayed(before, t, d);
    }
  }

  lemma {:induction false} SubmissionsBefore(events: seq<Event>, r: Req)
    requires r < |Submissions(events)|
    ensures Submissions(events[..SubmittedAt(events, r)]) == Submissions(events)[..r]
  {
    var init := events[..|events| - 1];
    SubmittedEarlier(events, r);
    if r < |Submissions(init)| {
      SubmissionsBefore(init, r);
    }
  }
}
