/**
 Every run of a client connection: sessions are held one after another, and each
 bridge accepts exactly the commands that arrived for it while it was held.
 */
module ConnectionTheorems {
  import opened Common
  import opened ClientConnection

  /** A bridge session as the frames show it: when it was opened, and whether it came to be held. */
  datatype Opening = Opening(at: nat, session: Session, held: bool)

  /** The bridge sessions opened by the frames, in order. */
  function Openings(tts: bool, events: seq<Event>): seq<Opening>
    decreases |events|
  {
    if events == [] then []
    else
      var before := events[..|events| - 1];
      var e := events[|events| - 1];
      Openings(tts, before) +
      if OpensBridge(tts, After(tts, before).active, e)
      then [Opening(|before|, Session(e.frame.domain, e.start.id), e.start.hasEvents && e.writable)] else []
  }

  /** The frame ends a session: a stop for its id that its bridge accepts. */
  predicate Ends(s: Session, e: Event) { e.accepted && CommandOf(s, e.frame) == Some(Stop) }

  /** The session was ended by one of the frames. */
  predicate Ended(s: Session, events: seq<Event>) {
    exists i :: 0 <= i < |events| && Ends(s, events[i])
  }

  /** The commands of the frames for a session, in order, through the stop that ends it. */
  function Projection(s: Session, events: seq<Event>): seq<Command>
    decreases |events|
  {
    if events == [] then []
    else
      var before := events[..|events| - 1];
      var e := events[|events| - 1];
      if Ended(s, before) then Projection(s, before)
      else
        Projection(s, before) +
        if e.accepted && CommandOf(s, e.frame).Some? then [CommandOf(s, e.frame).value] else []
  }

  /** The frames that follow an opening. */
  function Since(o: Opening, events: seq<Event>): seq<Event> {
    if o.at < |events| then events[o.at + 1..] else []
  }

  predicate HeldAfter(o: Opening, events: seq<Event>) { o.held && !Ended(o.session, Since(o, events)) }

  /** What the state says of bridge `b`. */
  ghost predicate BridgeMatches(s: State, os: seq<Opening>, events: seq<Event>, b: nat)
    requires b < |s.bridges| == |os|
  {
    var o := os[b];
    && o.at < |events|
    && s.bridges[b].session == o.session
    && s.bridges[b].commands == (if o.held then Projection(o.session, Since(o, events)) else [])
    && (s.active == Some(Active(o.session, b)) <==> HeldAfter(o, events))
    && (s.active.Some? && s.active.value.bridge == b ==> s.active.value.session == o.session)
  }

  ghost predicate Matches(s: State, os: seq<Opening>, events: seq<Event>) {
    && |s.bridges| == |os|
    && (s.active.Some? ==> s.active.value.bridge < |os|)
    && forall b :: 0 <= b < |os| ==> BridgeMatches(s, os, events, b)
  }

  lemma SinceSnoc(o: Opening, events: seq<Event>, e: Event)
    requires o.at < |events|
    ensures Since(o, events + [e]) == Since(o, events) + [e]
    ensures Ended(o.session, Since(o, events + [e])) <==> Ended(o.session, Since(o, events)) || Ends(o.session, e)
    ensures Projection(o.session, Since(o, events + [e])) ==
            if Ended(o.session, Since(o, events)) then Projection(o.session, Since(o, events))
            else Projection(o.session, Since(o, events)) +
                 if e.accepted && CommandOf(o.session, e.frame).Some? then [CommandOf(o.session, e.frame).value] else []
  {
    var since := Since(o, events);
    hide CommandOf;
    assert events[o.at + 1..] + [e] == (events + [e])[o.at + 1..];
    assert (since + [e])[..|since|] == since;
    assert forall i :: 0 <= i < |since| ==> (since + [e])[i] == since[i];
    assert (since + [e])[|since|] == e;
    if Ended(o.session, since) {
      var i :| 0 <= i < |since| && Ends(o.session, since[i]);
      assert Ends(o.session, (since + [e])[i]);
    }
  }

  /** A bridge other than the held one accepts nothing, and the held one exactly the frame's command. */
  lemma StepOnBridge(tts: bool, s: State, e: Event, b: nat)
    requires s.Valid() && b < |s.bridges|
    ensures var t := Step(tts, s, e);
            var command := CommandOf(s.bridges[b].session, e.frame);
            && b < |t.bridges| && t.bridges[b].session == s.bridges[b].session
            && (s.active.Some? && s.active.value.bridge == b && e.accepted && command.Some? ==>
                  && t.bridges[b].commands == s.bridges[b].commands + [command.value]
                  && t.active == if command.value.Stop? then None else s.active)
            && (!(s.active.Some? && s.active.value.bridge == b && e.accepted && command.Some?) ==>
                t.bridges[b] == s.bridges[b])
  {}

  /** What becomes of the held session. */
  lemma StepOnActive(tts: bool, s: State, e: Event)
    requires s.Valid()
    ensures var t := Step(tts, s, e);
            && (s.active.Some? ==>
                  && |t.bridges| == |s.bridges|
                  && t.active == if Ends(s.active.value.session, e) then None else s.active)
            && (s.active.None? && !OpensBridge(tts, s.active, e) ==> t.active.None? && |t.bridges| == |s.bridges|)
            && (OpensBridge(tts, s.active, e) ==>
                  var session := Session(e.frame.domain, e.start.id);
                  && t.bridges == s.bridges + [Bridge(session, [])]
                  && t.active == if e.start.hasEvents && e.writable then Some(Active(session, |s.bridges|)) else None)
  {}

  lemma BridgeStep(tts: bool, s: State, os: seq<Opening>, events: seq<Event>, e: Event, b: nat)
    requires s.Valid() && Matches(s, os, events) && b < |os|
    ensures var t := Step(tts, s, e);
            b < |t.bridges| && (|t.bridges| == |os| ==> BridgeMatches(t, os, events + [e], b))
            && (|t.bridges| == |os| + 1 ==> forall o :: BridgeMatches(t, os + [o], events + [e], b))
  {
    hide Step, CommandOf, Projection, Since;
    assert BridgeMatches(s, os, events, b);
    StepOnBridge(tts, s, e, b);
    StepOnActive(tts, s, e);
    SinceSnoc(os[b], events, e);
    hide Ended;
  }

  lemma {:induction false} RunMatches(tts: bool, events: seq<Event>)
    ensures Matches(After(tts, events), Openings(tts, events), events)
    decreases |events|
  {
    if events != [] {
      var (before, e) := (events[..|events| - 1], events[|events| - 1]);
      RunMatches(tts, before);
      assert before + [e] == events;
      var (s, os) := (After(tts, before), Openings(tts, before));
      hide Step, Projection, CommandOf, BridgeMatches;
      StepOnActive(tts, s, e);
      forall b | 0 <= b < |os|
        ensures BridgeMatches(After(tts, events), Openings(tts, events), events, b)
      {
        BridgeStep(tts, s, os, before, e, b);
      }
      if OpensBridge(tts, s.active, e) {
        FreshMatches(tts, s, os, before, e);
      }
    }
  }

  lemma FreshMatches(tts: bool, s: State, os: seq<Opening>, before: seq<Event>, e: Event)
    requires s.Valid() && |s.bridges| == |os| && OpensBridge(tts, s.active, e)
    ensures var o := Opening(|before|, Session(e.frame.domain, e.start.id), e.start.hasEvents && e.writable);
            BridgeMatches(Step(tts, s, e), os + [o], before + [e], |os|)
  {
    StepOnActive(tts, s, e);
    hide Step, CommandOf;
    assert (before + [e])[|before| + 1..] == [];
  }

  /**
   Each bridge's accepted commands are exactly the in-order projection of the frames
   that followed its start and matched its id and domain, up to the stop it accepted;
   a bridge whose start could not be reported to the client accepts nothing.
   */
  lemma StreamIsProjection(tts: bool, events: seq<Event>, b: nat)
    requires b < |After(tts, events).bridges|
    ensures |Openings(tts, events)| == |After(tts, events).bridges|
    ensures var o := Openings(tts, events)[b];
            && After(tts, events).bridges[b].session == o.session
            && After(tts, events).bridges[b].commands == if o.held then Projection(o.session, Since(o, events)) else []
  {
    RunMatches(tts, events);
    assert BridgeMatches(After(tts, events), Openings(tts, events), events, b);
    hide After, Openings, Projection;
  }

  /** Nothing follows a stop: if a bridge accepted one, it is its last command. */
  lemma {:induction false} NothingAfterStop(s: Session, events: seq<Event>)
    ensures var p := Projection(s, events);
            && (forall i :: 0 <= i < |p| && p[i] == Stop ==> i == |p| - 1)
            && (Ended(s, events) <==> p != [] && p[|p| - 1] == Stop)
    decreases |events|
  {
    if events != [] {
      var (before, e) := (events[..|events| - 1], events[|events| - 1]);
      NothingAfterStop(s, before);
      hide CommandOf;
      assert Ended(s, events) <==> Ended(s, before) || Ends(s, e) by {
        if Ended(s, before) {
          var i :| 0 <= i < |before| && Ends(s, before[i]);
          assert Ends(s, events[i]);
        }
        assert events[|events| - 1] == e;
        assert forall i :: 0 <= i < |before| ==> events[i] == before[i];
      }
    }
  }

  /**
   At most one session is held at any time: of two that came to be held, the first was
   ended before the second began.
   */
  lemma {:induction false} OneSessionAtATime(tts: bool, events: seq<Event>, a: nat, b: nat)
    requires a < b < |Openings(tts, events)|
    ensures var (first, second) := (Openings(tts, events)[a], Openings(tts, events)[b]);
            && first.at < second.at < |events|
            && (first.held ==> Ended(first.session, Since(first, events[..second.at])))
            && !(HeldAfter(first, events) && HeldAfter(second, events))
    decreases |events|
  {
    var (before, e) := (events[..|events| - 1], events[|events| - 1]);
    var os := Openings(tts, before);
    RunMatches(tts, before);
    RunMatches(tts, events);
    assert BridgeMatches(After(tts, events), Openings(tts, events), events, a);
    assert BridgeMatches(After(tts, events), Openings(tts, events), events, b);
    hide Projection, Step, CommandOf, Since, After;
    if b < |os| {
      OneSessionAtATime(tts, before, a, b);
      assert before[..os[b].at] == events[..os[b].at];
    } else {
      assert BridgeMatches(After(tts, before), os, before, a);
      assert events[..|before|] == before;
    }
  }

  /** A session is held exactly when some opening of the frames so far came to be held and none of them ended it. */
  lemma HeldExactly(tts: bool, events: seq<Event>)
    ensures After(tts, events).active.Some? <==>
            exists b :: 0 <= b < |Openings(tts, events)| && HeldAfter(Openings(tts, events)[b], events)
  {
    RunMatches(tts, events);
    var (s, os) := (After(tts, events), Openings(tts, events));
    hide After, Openings, HeldAfter, Projection;
    if s.active.Some? {
      var b := s.active.value.bridge;
      assert BridgeMatches(s, os, events, b);
      assert s.active == Some(Active(os[b].session, b));
    }
    forall b | 0 <= b < |os| ensures HeldAfter(os[b], events) ==> s.active.Some? {
      assert BridgeMatches(s, os, events, b);
    }
  }

  /**
   A start is accepted exactly when every session that came to be held before has been
   ended by its frames, the domain is served, and the bridge session opens with events
   and can be reported.
   */
  lemma StartAcceptedExactly(tts: bool, events: seq<Event>, e: Event)
    requires e.frame.Start?
    ensures var (s, t, os) := (After(tts, events), Step(tts, After(tts, events), e), Openings(tts, events));
            var accepted := t.active.Some? && s.active.None?;
            && (accepted <==> && (forall b :: 0 <= b < |os| ==> !HeldAfter(os[b], events))
                              && (e.frame.domain == Tts ==> tts)
                              && e.start.Opens? && e.start.hasEvents && e.writable)
            && (accepted ==> t.replies == s.replies + [SessionStarted(e.frame.domain, e.start.id)]
                             && t.active.value.session == Session(e.frame.domain, e.start.id))
            && (!accepted ==> t.replies == s.replies || exists r: Reply :: r.Failed? && t.replies == s.replies + [r])
            && (s.active.Some? ==>
                  t == s.(replies := Sent(s.replies, e.writable, Failed(Unsupported, HeldId(s.active)))))
  {
    HeldExactly(tts, events);
    hide After, Openings, HeldAfter;
  }

  /** The sessions the client was told of, in order. */
  function StartedSessions(replies: seq<Reply>): seq<Session> {
    if replies == [] then []
    else
      var last := replies[|replies| - 1];
      StartedSessions(replies[..|replies| - 1]) +
      if last.SessionStarted? then [Session(last.domain, last.id)] else []
  }

  /** The sessions that came to be held, in order. */
  function HeldSessions(os: seq<Opening>): seq<Session> {
    if os == [] then []
    else HeldSessions(os[..|os| - 1]) + if os[|os| - 1].held then [os[|os| - 1].session] else []
  }

  lemma StartedSnoc(replies: seq<Reply>, reply: Reply)
    ensures StartedSessions(replies + [reply]) ==
            StartedSessions(replies) + if reply.SessionStarted? then [Session(reply.domain, reply.id)] else []
  {
    assert (replies + [reply])[..|replies|] == replies;
  }

  /** A frame is answered at most once, and "session started" exactly for an opening that is held. */
  lemma StepReplies(tts: bool, s: State, e: Event)
    requires s.Valid()
    ensures var t := Step(tts, s, e);
            var held := OpensBridge(tts, s.active, e) && e.start.hasEvents && e.writable;
            && s.replies <= t.replies && |t.replies| <= |s.replies| + 1
            && (held ==> t.replies == s.replies + [SessionStarted(e.frame.domain, e.start.id)])
            && (!held && |t.replies| > |s.replies| ==> !t.replies[|s.replies|].SessionStarted?)
  {
    hide CommandOf, Mismatch;
  }

  /** Over a whole connection: the client is told of exactly the sessions that came to be held, once each, in order. */
  lemma {:induction false} StartedAreHeld(tts: bool, events: seq<Event>)
    ensures StartedSessions(After(tts, events).replies) == HeldSessions(Openings(tts, events))
    decreases |events|
  {
    if events != [] {
      var (before, e) := (events[..|events| - 1], events[|events| - 1]);
      StartedAreHeld(tts, before);
      var (s, t, os) := (After(tts, before), After(tts, events), Openings(tts, before));
      StepReplies(tts, s, e);
      hide Step, OpensBridge;
      var opening := Openings(tts, events);
      if OpensBridge(tts, s.active, e) {
        assert opening[..|os|] == os;
      } else {
        assert opening == os;
      }
      if t.replies != s.replies {
        StartedSnoc(s.replies, t.replies[|s.replies|]);
        assert t.replies == s.replies + [t.replies[|s.replies|]];
      }
      hide StartedSessions, After, Openings;
    }
  }

  /**
   However the connection ends other than by a read error, nothing is held, and a still
   held bridge was told to stop.
   */
  lemma DisconnectStops(tts: bool, events: seq<Event>, accepted: bool)
    ensures |Openings(tts, events)| == |After(tts, events).bridges|
    ensures var (s, t) := (After(tts, events), Disconnect(After(tts, events), accepted));
            && t.active.None? && |t.bridges| == |s.bridges|
            && forall b :: 0 <= b < |s.bridges| ==>
                 t.bridges[b].commands == s.bridges[b].commands +
                                          if accepted && HeldAfter(Openings(tts, events)[b], events) then [Stop] else []
  {
    RunMatches(tts, events);
    var (s, os) := (After(tts, events), Openings(tts, events));
    hide After, Openings, HeldAfter, Projection;
    forall b | 0 <= b < |s.bridges|
      ensures s.active.Some? && s.active.value.bridge == b <==> HeldAfter(os[b], events)
    {
      assert BridgeMatches(s, os, events, b);
    }
  }
}
