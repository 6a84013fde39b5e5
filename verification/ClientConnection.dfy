/**
 One client connection of the gateway: a loop over frames that holds at most one
 session and passes commands to its bridge. Bridge calls and the client's channel
 may fail at any frame.
 */
module ClientConnection {
  import opened Common

  type SessionId = string

  datatype Domain = Asr | Tts

  datatype Frame =
    | Hello | Discover | TtsVoices | PingMessage | AsrTranscribe | InvalidJson | WsPing | WsPong
    | Start(domain: Domain)
    | AsrCommit(id: SessionId)
    | TtsInputAppend(id: SessionId, delta: string)
    | TtsCommit(id: SessionId)
    | SessionStop(id: SessionId)
    | Binary(bytes: seq<byte>)
    | Close
    | ReadError

  /** What `start_stream` does: fail, or open a bridge session, with or without its event stream. */
  datatype StartOutcome = StartFails | Opens(id: SessionId, hasEvents: bool)

  /** A frame, whether the client's channel takes messages, whether the bridge call succeeds, and how a start ends. */
  datatype Event = Event(frame: Frame, writable: bool, accepted: bool, start: StartOutcome)

  datatype Command = PushAudio(bytes: seq<byte>) | AppendInput(delta: string) | Commit | Stop

  datatype ErrorKind = InvalidRequest | Unsupported | SessionNotFound | BridgeError | Disconnected

  datatype Reply =
    | HelloOk | DiscoverResult | VoicesResult | Pong
    | SessionStarted(domain: Domain, id: SessionId)
    | Failed(kind: ErrorKind, session: Option<SessionId>)

  datatype Session = Session(domain: Domain, id: SessionId)

  /** A bridge session and the commands it has accepted. */
  datatype Bridge = Bridge(session: Session, commands: seq<Command>)

  /** The held session and which of the opened bridges it is. */
  datatype Active = Active(session: Session, bridge: nat)

  datatype State = State(active: Option<Active>, bridges: seq<Bridge>, replies: seq<Reply>) {
    predicate Valid() {
      active.Some? ==> active.value.bridge < |bridges| && bridges[active.value.bridge].session == active.value.session
    }
  }

  /** The command a frame means for a held session. */
  function CommandOf(s: Session, frame: Frame): Option<Command> {
    match frame
    case AsrCommit(id) => if s.domain == Asr && id == s.id then Some(Commit) else None
    case TtsInputAppend(id, delta) => if s.domain == Tts && id == s.id then Some(AppendInput(delta)) else None
    case TtsCommit(id) => if s.domain == Tts && id == s.id then Some(Commit) else None
    case SessionStop(id) => if id == s.id then Some(Stop) else None
    case Binary(bytes) => if s.domain == Asr then Some(PushAudio(bytes)) else None
    case _ => None
  }

  /** Why a frame that carries a command has none for the held session. */
  function Mismatch(active: Option<Active>, frame: Frame): ErrorKind {
    match frame
    case AsrCommit(_) => if active.Some? && active.value.session.domain == Tts then Unsupported else SessionNotFound
    case TtsInputAppend(_, _) =>
      if active.Some? && active.value.session.domain == Asr then Unsupported else SessionNotFound
    case TtsCommit(_) => if active.Some? && active.value.session.domain == Asr then Unsupported else SessionNotFound
    case Binary(_) => if active.Some? then Unsupported else SessionNotFound
    case _ => SessionNotFound
  }

  predicate CarriesCommand(frame: Frame) {
    frame.AsrCommit? || frame.TtsInputAppend? || frame.TtsCommit? || frame.SessionStop? || frame.Binary?
  }

  /** A start that gets as far as opening a bridge session. */
  predicate OpensBridge(ttsEnabled: bool, active: Option<Active>, e: Event) {
    e.frame.Start? && active.None? && (e.frame.domain == Tts ==> ttsEnabled) && e.start.Opens?
  }

  function ReplyTo(frame: Frame): Option<Reply> {
    match frame
    case Hello => Some(HelloOk)
    case Discover => Some(DiscoverResult)
    case TtsVoices => Some(VoicesResult)
    case PingMessage => Some(Pong)
    case WsPing => Some(Pong)
    case _ => None
  }

  function HeldId(active: Option<Active>): Option<SessionId> {
    if active.Some? then Some(active.value.session.id) else None
  }

  /** `replies` with one more, if the client's channel takes it. */
  function Sent(replies: seq<Reply>, writable: bool, reply: Reply): seq<Reply> {
    if writable then replies + [reply] else replies
  }

  /** One frame. */
  function Step(ttsEnabled: bool, s: State, e: Event): State
    requires s.Valid()
  {
    var failed := ((kind: ErrorKind) => s.(replies := Sent(s.replies, e.writable, Failed(kind, HeldId(s.active)))));
    if e.frame.Start? then
      if s.active.Some? || (e.frame.domain == Tts && !ttsEnabled) then failed(Unsupported)
      else if e.start.StartFails? then failed(BridgeError)
      else
        var session := Session(e.frame.domain, e.start.id);
        var withBridge := s.(bridges := s.bridges + [Bridge(session, [])]);
        if !e.start.hasEvents then withBridge.(replies := Sent(s.replies, e.writable, Failed(BridgeError, None)))
        else if !e.writable then withBridge
        else withBridge.(replies := s.replies + [SessionStarted(e.frame.domain, e.start.id)],
                     active := Some(Active(session, |s.bridges|)))
    else if CarriesCommand(e.frame) then
      if s.active.None? || CommandOf(s.active.value.session, e.frame).None? then failed(Mismatch(s.active, e.frame))
      else if !e.accepted then failed(BridgeError)
      else
        var command := CommandOf(s.active.value.session, e.frame).value;
        var b := s.active.value.bridge;
        s.(bridges := s.bridges[b := s.bridges[b].(commands := s.bridges[b].commands + [command])],
           active := if command.Stop? then None else s.active)
    else
      match e.frame
      case InvalidJson => failed(InvalidRequest)
      case AsrTranscribe => failed(Unsupported)
      case TtsVoices =>
        if !ttsEnabled then failed(Unsupported)
        else if !e.accepted then failed(BridgeError)
        else s.(replies := Sent(s.replies, e.writable, VoicesResult))
      case _ =>
        var reply := ReplyTo(e.frame);
        if reply.Some? then s.(replies := Sent(s.replies, e.writable, reply.value)) else s
  }

  function After(ttsEnabled: bool, events: seq<Event>): (s: State)
    ensures s.Valid()
    decreases |events|
  {
    if events == [] then State(None, [], [])
    else Step(ttsEnabled, After(ttsEnabled, events[..|events| - 1]), events[|events| - 1])
  }

  /** How many frames the loop handles: up to the first close or read error. */
  function Handled(events: seq<Event>): (n: nat)
    ensures n <= |events| && (n < |events| ==> events[n].frame.Close? || events[n].frame.ReadError?)
    ensures forall i :: 0 <= i < n ==> !events[i].frame.Close? && !events[i].frame.ReadError?
  {
    if events == [] || events[0].frame.Close? || events[0].frame.ReadError? then 0 else 1 + Handled(events[1..])
  }

  /** The disconnect: a held session is told to stop and let go, whether or not its bridge accepts that. */
  function Disconnect(s: State, accepted: bool): State
    requires s.Valid()
  {
    if s.active.None? then s
    else
      var b := s.active.value.bridge;
      State(None,
            if accepted then s.bridges[b := s.bridges[b].(commands := s.bridges[b].commands + [Stop])] else s.bridges,
            s.replies)
  }

  class Connection {
    const ttsEnabled: bool
    var active: Option<Active>
    var bridges: seq<Bridge>
    var replies: seq<Reply>

    constructor (ttsEnabled: bool)
      ensures this.ttsEnabled == ttsEnabled && Now() == State(None, [], [])
    {
      this.ttsEnabled := ttsEnabled;
      active, bridges, replies := None, [], [];
    }

    ghost function Now(): State
      reads this
    {
      State(active, bridges, replies)
    }

    method Send(reply: Reply, writable: bool) returns (sent: bool)
      modifies this`replies
      ensures sent == writable && replies == Sent(old(replies), writable, reply)
    {
      sent := writable;
      if sent {
        replies := replies + [reply];
      }
    }

    method StartSession(domain: Domain, outcome: StartOutcome, writable: bool) returns (error: Option<ErrorKind>)
      requires Now().Valid()
      modifies this
      ensures Now().Valid()
      ensures var e := Event(Start(domain), writable, true, outcome);
              Step(ttsEnabled, old(Now()), e) ==
              if error.Some? then Now().(replies := Sent(replies, writable, Failed(error.value, HeldId(active))))
              else Now()
    {
      if active.Some? {
        return Some(Unsupported);
      }
      if domain == Tts && !ttsEnabled {
        return Some(Unsupported);
      }
      if outcome.StartFails? {
        return Some(BridgeError);
      }
      var session := Session(domain, outcome.id);
      bridges := bridges + [Bridge(session, [])];
      if !outcome.hasEvents {
        return Some(BridgeError);
      }
      var sent := Send(SessionStarted(domain, outcome.id), writable);
      if !sent {
        return Some(Disconnected);
      }
      active := Some(Active(session, |bridges| - 1));
      return None;
    }

    /** A command for the held session's bridge. */
    method PassCommand(frame: Frame, accepted: bool) returns (error: Option<ErrorKind>)
      requires Now().Valid() && CarriesCommand(frame)
      modifies this`active, this`bridges
      ensures Now().Valid()
      ensures forall writable, start ::
                Step(ttsEnabled, old(Now()), Event(frame, writable, accepted, start)) ==
                if error.Some? then Now().(replies := Sent(replies, writable, Failed(error.value, HeldId(active))))
                else Now()
    {
      if active.None? || CommandOf(active.value.session, frame).None? {
        return Some(Mismatch(active, frame));
      }
      if !accepted {
        return Some(BridgeError);
      }
      var b := active.value.bridge;
      var command := CommandOf(active.value.session, frame).value;
      bridges := bridges[b := bridges[b].(commands := bridges[b].commands + [command])];
      if command.Stop? {
        active := None;
      }
      return None;
    }

    method HandleFrame(e: Event)
      requires Now().Valid()
      modifies this
      ensures Now().Valid() && Now() == Step(ttsEnabled, old(Now()), e)
    {
      var error: Option<ErrorKind> := None;
      if e.frame.Start? {
        error := StartSession(e.frame.domain, e.start, e.writable);
        assert Step(ttsEnabled, old(Now()), e) ==
          Step(ttsEnabled, old(Now()), Event(Start(e.frame.domain), e.writable, true, e.start));
      } else if CarriesCommand(e.frame) {
        error := PassCommand(e.frame, e.accepted);
        assert Step(ttsEnabled, old(Now()), e) ==
          Step(ttsEnabled, old(Now()), Event(e.frame, e.writable, e.accepted, e.start));
      } else if e.frame.InvalidJson? {
        error := Some(InvalidRequest);
      } else if e.frame.AsrTranscribe? || (e.frame.TtsVoices? && !ttsEnabled) {
        error := Some(Unsupported);
      } else if e.frame.TtsVoices? && !e.accepted {
        error := Some(BridgeError);
      } else if ReplyTo(e.frame).Some? {
        var sent := Send(ReplyTo(e.frame).value, e.writable);
        error := if sent || e.frame.WsPing? then None else Some(Disconnected);
      }
      if error.Some? {
        var _ := Send(Failed(error.value, HeldId(active)), e.writable);
      }
    }

    /** The connection's loop and the stop on disconnect; a read error leaves at once. */
    method HandleClientWebsocket(events: seq<Event>, stopAccepted: bool)
      requires Now() == State(None, [], [])
      modifies this
      ensures var n := Handled(events);
              var last := After(ttsEnabled, events[..n]);
              Now() == if n < |events| && events[n].frame.ReadError? then last else Disconnect(last, stopAccepted)
    {
      hide Step;
      var i := 0;
      while i < |events|
        invariant 0 <= i <= Handled(events)
        invariant Now().Valid() && Now() == After(ttsEnabled, events[..i])
      {
        if events[i].frame.ReadError? {
          return;
        }
        if events[i].frame.Close? {
          break;
        }
        assert events[..i + 1][..i] == events[..i];
        HandleFrame(events[i]);
        i := i + 1;
      }
      if active.Some? {
        var b := active.value.bridge;
        if stopAccepted {
          bridges := bridges[b := bridges[b].(commands := bridges[b].commands + [Stop])];
        }
        active := None;
      }
    }
  }
}
