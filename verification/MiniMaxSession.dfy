/**
 One MiniMax streaming synthesis session: an event loop fed by two sides, the
 upstream socket and the client's commands, in any interleaving.
 */
module MiniMaxSession {
  import opened Common
  import opened Text
  import MiniMaxAudio

  datatype Mode = Buffered | Streaming

  datatype Frame =
    | TaskStart(first: Option<string>)
    | TaskContinue(text: string)
    | TaskFinish
    | Pong

  datatype Kind = TaskStarted | TaskFinished | TaskFailed | OtherKind

  /** What arrives from upstream; `audio` is the payload of a text event that has one. */
  datatype Message =
    | TextEvent(providerError: bool, kind: Kind, audio: Option<string>, isFinal: bool)
    | Undecodable
    | Binary(bytes: seq<byte>)
    | Ping
    | Close
    | ReadError
    | EndOfStream
    | Ignored

  datatype Command = Append(delta: string) | Commit | Stop | Hangup

  datatype Input = Upstream(message: Message) | Client(command: Command)

  datatype AudioChunk = AudioChunk(bytes: seq<byte>, sequence: nat, format: Option<string>)

  /** Everything that happened, in order: inputs taken and frames sent. */
  datatype Entry = Got(input: Input) | Sent(frame: Frame)

  datatype End = Finished | Stopped | Failed

  /** The world outside: the `failAt`-th frame cannot be written, the listener takes `listens` chunks. */
  datatype Env = Env(mode: Mode, format: Option<string>, failAt: nat, listens: nat)

  datatype Session = Session(
    started: bool,
    taskStartSent: bool,
    committed: bool,
    buffered: string,
    pending: seq<string>,
    sequence: nat,
    audio: seq<AudioChunk>,
    log: seq<Entry>,
    end: Option<End>)

  function FrameCount(log: seq<Entry>): nat {
    if log == [] then 0 else FrameCount(log[..|log| - 1]) + if log[|log| - 1].Sent? then 1 else 0
  }

  /** Writing a frame; a failed write ends the session. */
  function Send(env: Env, s: Session, f: Frame): Session {
    if s.end.Some? then s
    else if FrameCount(s.log) == env.failAt then s.(end := Some(Failed))
    else s.(log := s.log + [Sent(f)])
  }

  function SendAll(env: Env, s: Session, texts: seq<string>): Session {
    if texts == [] then s
    else Send(env, SendAll(env, s, texts[..|texts| - 1]), TaskContinue(texts[|texts| - 1]))
  }

  /** An audio chunk goes to the listener. */
  function Emit(env: Env, s: Session, bytes: seq<byte>): Session {
    if |s.audio| == env.listens then s.(end := Some(Failed))
    else s.(audio := s.audio + [AudioChunk(bytes, s.sequence, if s.sequence == 1 then env.format else None)])
  }

  function OnStarted(env: Env, s: Session): Session {
    var flushed := SendAll(env, s.(started := true, pending := []), s.pending);
    if s.committed then Send(env, flushed, TaskFinish) else flushed
  }

  function OnAudio(env: Env, s: Session, payload: Option<string>, isFinal: bool): Session {
    if s.end.Some? || payload.None? then s
    else
      var audio := Trim(payload.value);
      if audio == "" then (if isFinal then s.(end := Some(Finished)) else s)
      else
        var counted := s.(sequence := s.sequence + 1);
        var bytes := MiniMaxAudio.DecodeMiniMaxAudio(audio);
        if bytes.None? then counted.(end := Some(Failed))
        else if bytes.value == [] then (if isFinal then counted.(end := Some(Finished)) else counted)
        else Emit(env, counted, bytes.value)
  }

  function OnMessage(env: Env, s: Session, m: Message): Session {
    match m
    case TextEvent(providerError, kind, audio, isFinal) =>
      if providerError || kind.TaskFailed? then s.(end := Some(Failed))
      else if kind.TaskFinished? then s.(end := Some(Finished))
      else OnAudio(env, if kind.TaskStarted? then OnStarted(env, s) else s, audio, isFinal)
    case Binary(bytes) => Emit(env, s.(sequence := s.sequence + 1), bytes)
    case Ping => Send(env, s, Pong)
    case Close => s.(end := Some(if s.committed then Finished else Failed))
    case EndOfStream => s.(end := Some(if s.committed then Finished else Failed))
    case Undecodable => s.(end := Some(Failed))
    case ReadError => s.(end := Some(Failed))
    case Ignored => s
  }

  function SendStart(env: Env, s: Session, text: Option<string>): Session {
    var sent := Send(env, s, TaskStart(text));
    if sent.end.Some? then sent else sent.(taskStartSent := true)
  }

  function OnAppend(env: Env, s: Session, delta: string): Session {
    if delta == "" then s
    else if env.mode.Buffered? then s.(buffered := s.buffered + delta)
    else if s.started then Send(env, s, TaskContinue(delta))
    else if !s.taskStartSent then SendStart(env, s, Some(delta))
    else s.(pending := s.pending + [delta])
  }

  function OnCommit(env: Env, s: Session): Session {
    var c := s.(committed := true);
    if env.mode.Buffered? then
      var text := Trim(s.buffered);
      if text == "" then c.(end := Some(Failed))
      else if s.started then Send(env, Send(env, c, TaskContinue(text)), TaskFinish)
      else if !s.taskStartSent then SendStart(env, c, Some(text))
      else c.(pending := c.pending + [text])
    else if s.started then Send(env, c, TaskFinish)
    else c
  }

  /** The write on stop is best effort: its failure is ignored. */
  function OnStop(env: Env, s: Session): Session {
    Send(env, s, TaskFinish).(end := Some(Stopped))
  }

  function OnCommand(env: Env, s: Session, c: Command): Session {
    match c
    case Append(delta) => OnAppend(env, s, delta)
    case Commit => OnCommit(env, s)
    case Stop => OnStop(env, s)
    case Hangup => s.(end := Some(Stopped))
  }

  /** One turn of the loop; a session that has ended takes nothing more. */
  function Turn(env: Env, s: Session, x: Input): Session {
    if s.end.Some? then s
    else
      var t := s.(log := s.log + [Got(x)]);
      match x
      case Upstream(m) => OnMessage(env, t, m)
      case Client(c) => OnCommand(env, t, c)
  }

  const BLANK := Session(false, false, false, "", [], 0, [], [], None)

  function Opening(env: Env): Session {
    if env.mode.Buffered? then SendStart(env, BLANK, None) else BLANK
  }

  function Run(env: Env, inputs: seq<Input>): Session {
    if inputs == [] then Opening(env)
    else Turn(env, Run(env, inputs[..|inputs| - 1]), inputs[|inputs| - 1])
  }

  // ---- The loop itself ----

  lemma RunStep(env: Env, inputs: seq<Input>, i: nat)
    requires i < |inputs|
    ensures Run(env, inputs[..i + 1]) == Turn(env, Run(env, inputs[..i]), inputs[i])
  {
    assert inputs[..i + 1][..i] == inputs[..i];
  }

  lemma {:induction false} EndedStays(env: Env, inputs: seq<Input>, i: nat)
    requires i <= |inputs| && Run(env, inputs[..i]).end.Some?
    ensures Run(env, inputs) == Run(env, inputs[..i])
    decreases |inputs| - i
  {
    if i < |inputs| {
      RunStep(env, inputs, i);
      EndedStays(env, inputs, i + 1);
    } else {
      assert inputs[..i] == inputs;
    }
  }

  /** The session's local variables, updated input by input until the session ends. */
  class Loop {
    const env: Env
    var started: bool
    var taskStartSent: bool
    var committed: bool
    var buffered: string
    var pendingChunks: seq<string>
    var chunkSequence: nat
    var audio: seq<AudioChunk>
    var log: seq<Entry>
    var end: Option<End>

    function View(): Session
      reads this
    {
      Session(started, taskStartSent, committed, buffered, pendingChunks, chunkSequence, audio, log, end)
    }

    constructor (env: Env)
      ensures this.env == env && View() == BLANK
    {
      this.env := env;
      started, taskStartSent, committed, buffered := false, false, false, "";
      pendingChunks, chunkSequence, audio, log, end := [], 0, [], [], None;
    }

    method SendFrame(f: Frame)
      modifies this`log, this`end
      ensures View() == Send(env, old(View()), f)
    {
      if end.None? {
        if FrameCount(log) == env.failAt {
          end := Some(Failed);
        } else {
          log := log + [Sent(f)];
        }
      }
    }

    method SendTaskStart(text: Option<string>)
      modifies this`log, this`end, this`taskStartSent
      ensures View() == SendStart(env, old(View()), text)
    {
      SendFrame(TaskStart(text));
      if end.None? {
        taskStartSent := true;
      }
    }

    method EmitChunk(bytes: seq<byte>)
      modifies this`audio, this`end
      ensures View() == Emit(env, old(View()), bytes)
    {
      if |audio| == env.listens {
        end := Some(Failed);
      } else {
        audio := audio + [AudioChunk(bytes, chunkSequence, if chunkSequence == 1 then env.format else None)];
      }
    }

    method TaskStartedEvent()
      modifies this
      ensures View() == OnStarted(env, old(View()))
    {
      started := true;
      var chunks := pendingChunks;
      pendingChunks := [];
      ghost var ready := View();
      assert ready == old(View()).(started := true, pending := []) && chunks == old(View()).pending;
      for i := 0 to |chunks|
        invariant View() == SendAll(env, ready, chunks[..i])
        invariant committed == ready.committed
      {
        SendFrame(TaskContinue(chunks[i]));
        assert chunks[..i + 1][..i] == chunks[..i];
      }
      assert chunks[..|chunks|] == chunks;
      if committed {
        SendFrame(TaskFinish);
      }
    }

    method AudioPayload(payload: Option<string>, isFinal: bool)
      modifies this
      ensures View() == OnAudio(env, old(View()), payload, isFinal)
    {
      if end.Some? || payload.None? {
        return;
      }
      var text := Trim(payload.value);
      if text == "" {
        if isFinal {
          end := Some(Finished);
        }
        return;
      }
      chunkSequence := chunkSequence + 1;
      var bytes := MiniMaxAudio.DecodeMiniMaxAudio(text);
      if bytes.None? {
        end := Some(Failed);
      } else if bytes.value == [] {
        if isFinal {
          end := Some(Finished);
        }
      } else {
        EmitChunk(bytes.value);
      }
    }

    method UpstreamMessage(m: Message)
      modifies this
      ensures View() == OnMessage(env, old(View()), m)
    {
      match m
      case TextEvent(providerError, kind, payload, isFinal) =>
        if providerError || kind.TaskFailed? {
          end := Some(Failed);
          return;
        }
        if kind.TaskFinished? {
          end := Some(Finished);
          return;
        }
        if kind.TaskStarted? {
          TaskStartedEvent();
        }
        AudioPayload(payload, isFinal);
      case Binary(bytes) =>
        chunkSequence := chunkSequence + 1;
        EmitChunk(bytes);
      case Ping => SendFrame(Pong);
      case Close => end := Some(if committed then Finished else Failed);
      case EndOfStream => end := Some(if committed then Finished else Failed);
      case Undecodable => end := Some(Failed);
      case ReadError => end := Some(Failed);
      case Ignored =>
    }

    method ClientCommand(c: Command)
      modifies this
      ensures View() == OnCommand(env, old(View()), c)
    {
      match c
      case Append(delta) =>
        if delta == "" {
          return;
        }
        if env.mode.Buffered? {
          buffered := buffered + delta;
        } else if started {
          SendFrame(TaskContinue(delta));
        } else if !taskStartSent {
          SendTaskStart(Some(delta));
        } else {
          pendingChunks := pendingChunks + [delta];
        }
      case Commit =>
        committed := true;
        if env.mode.Buffered? {
          var text := Trim(buffered);
          if text == "" {
            end := Some(Failed);
          } else if started {
            SendFrame(TaskContinue(text));
            SendFrame(TaskFinish);
          } else if !taskStartSent {
            SendTaskStart(Some(text));
          } else {
            pendingChunks := pendingChunks + [text];
          }
        } else if started {
          SendFrame(TaskFinish);
        }
      case Stop =>
        SendFrame(TaskFinish);
        end := Some(Stopped);
      case Hangup =>
        end := Some(Stopped);
    }

    method RunSession(inputs: seq<Input>)
      requires View() == BLANK
      modifies this
      ensures View() == Run(env, inputs)
    {
      if env.mode.Buffered? {
        SendTaskStart(None);
      }
      var i := 0;
      assert inputs[..0] == [];
      while i < |inputs| && end.None?
        invariant 0 <= i <= |inputs|
        invariant View() == Run(env, inputs[..i])
      {
        RunStep(env, inputs, i);
        log := log + [Got(inputs[i])];
        match inputs[i] {
          case Upstream(m) => UpstreamMessage(m);
          case Client(c) => ClientCommand(c);
        }
        i := i + 1;
      }
      if i < |inputs| {
        EndedStays(env, inputs, i);
      } else {
        assert inputs[..i] == inputs;
      }
    }
  }
}
