/**
 The MiniMax recognition session: a loop that buffers pushed audio, transcribes all
 of it again whenever enough has arrived since the last partial, and once more on
 commit. The transcriber is an arbitrary function of the call number and the audio.
 */
module AsrMiniMax {
  import opened Common
  import opened Text

  datatype Encoding = PcmS16Le | PcmF32Le | Other

  datatype Command = PushAudio(chunk: seq<byte>) | Commit | Stop

  datatype Event =
    | Partial(text: string)
    | Final(transcript: string)
    | Ended(reason: Option<string>)
    | Error(message: string)

  type Transcriber = (nat, seq<byte>) -> Result<string, string>

  /** The configured size if positive, else one second of PCM, else 32 KiB. */
  function StreamingPartialTriggerBytes(encoding: Encoding, sampleRateHz: nat, channels: nat, configured: nat): nat {
    if configured > 0 then configured
    else
      match encoding
      case PcmS16Le => sampleRateHz * channels * 2
      case PcmF32Le => sampleRateHz * channels * 4
      case Other => 32 * 1024
  }

  /** The trigger is positive unless it is inferred for PCM without a rate or without channels. */
  lemma TriggerIsPositiveExactly(encoding: Encoding, sampleRateHz: nat, channels: nat, configured: nat)
    ensures StreamingPartialTriggerBytes(encoding, sampleRateHz, channels, configured) > 0 <==>
            configured > 0 || encoding.Other? || (sampleRateHz > 0 && channels > 0)
  {
    if sampleRateHz > 0 && channels > 0 {
      assert sampleRateHz * channels > 0;
    }
  }

  /** What the session was started with, and how many events the receiver takes before it is gone. */
  datatype Config = Config(streaming: bool, trigger: nat, transcribe: Transcriber, room: nat)

  /** `calls` lists the audio of every transcription so far. */
  datatype State = State(buffered: seq<byte>, lastBytes: nat, lastText: Option<string>, calls: seq<seq<byte>>,
                         out: seq<Event>, done: bool)

  const START := State([], 0, None, [], [], false)

  /** An event sent; if the receiver is gone the session is done. */
  function Sent(cfg: Config, s: State, e: Event): State {
    if |s.out| < cfg.room then s.(out := s.out + [e]) else s.(done := true)
  }

  predicate Due(cfg: Config, s: State) {
    cfg.streaming && (if |s.buffered| >= s.lastBytes then |s.buffered| - s.lastBytes else 0) >= cfg.trigger
  }

  /** One command. */
  function Step(cfg: Config, s: State, c: Command): State {
    if s.done then s
    else
      match c
      case PushAudio(chunk) =>
        var s1 := s.(buffered := s.buffered + chunk);
        if !Due(cfg, s1) then s1
        else
          var r := cfg.transcribe(|s1.calls|, s1.buffered);
          var s2 := s1.(calls := s1.calls + [s1.buffered]);
          if r.Err? then Sent(cfg, s2, Error(r.error)).(done := true)
          else
            var text := Trim(r.value);
            if text == "" || s2.lastText == Some(text) then s2
            else Sent(cfg, s2.(lastBytes := |s2.buffered|, lastText := Some(text)), Partial(text))
      case Commit =>
        var r := cfg.transcribe(|s.calls|, s.buffered);
        var s1 := s.(calls := s.calls + [s.buffered]);
        if r.Err? then Sent(cfg, s1, Error(r.error)).(done := true)
        else
          var s2 := Sent(cfg, s1, Final(r.value));
          if s2.done then s2 else Sent(cfg, s2, Ended(None)).(done := true)
      case Stop => Sent(cfg, s, Ended(Some("stopped"))).(done := true)
  }

  function After(cfg: Config, commands: seq<Command>): State
    decreases |commands|
  {
    if commands == [] then START else Step(cfg, After(cfg, commands[..|commands| - 1]), commands[|commands| - 1])
  }

  /** The session's background loop and its variables. */
  class Session {
    const cfg: Config
    var bufferedAudio: seq<byte>
    var lastPartialBytes: nat
    var lastPartialText: Option<string>
    var events: seq<Event>
    var calls: seq<seq<byte>>

    constructor (cfg: Config)
      ensures this.cfg == cfg && Now(false) == START
    {
      this.cfg := cfg;
      bufferedAudio, lastPartialBytes, lastPartialText, events, calls := [], 0, None, [], [];
    }

    ghost function Now(done: bool): State
      reads this
    {
      State(bufferedAudio, lastPartialBytes, lastPartialText, calls, events, done)
    }

    method Send(e: Event) returns (ok: bool)
      modifies this`events
      ensures ok <==> |old(events)| < cfg.room
      ensures events == if ok then old(events) + [e] else old(events)
    {
      ok := |events| < cfg.room;
      if ok {
        events := events + [e];
      }
    }

    method Transcribe() returns (r: Result<string, string>)
      modifies this`calls
      ensures r == cfg.transcribe(|old(calls)|, bufferedAudio) && calls == old(calls) + [bufferedAudio]
    {
      r := cfg.transcribe(|calls|, bufferedAudio);
      calls := calls + [bufferedAudio];
    }

    method PushChunk(chunk: seq<byte>) returns (done: bool)
      modifies this
      ensures Now(done) == Step(cfg, old(Now(false)), PushAudio(chunk))
    {
      hide Trim;
      done := false;
      bufferedAudio := bufferedAudio + chunk;
      var unheard := if |bufferedAudio| >= lastPartialBytes then |bufferedAudio| - lastPartialBytes else 0;
      if cfg.streaming && unheard >= cfg.trigger {
        var r := Transcribe();
        if r.Err? {
          var _ := Send(Error(r.error));
          return true;
        }
        var text := Trim(r.value);
        if text != "" && lastPartialText != Some(text) {
          lastPartialBytes := |bufferedAudio|;
          lastPartialText := Some(text);
          var ok := Send(Partial(text));
          done := !ok;
        }
      }
    }

    method CommitAudio()
      modifies this
      ensures Now(true) == Step(cfg, old(Now(false)), Commit)
    {
      var r := Transcribe();
      if r.Err? {
        var _ := Send(Error(r.error));
        return;
      }
      var ok := Send(Final(r.value));
      if ok {
        var _ := Send(Ended(None));
      }
    }

    /** The loop over the commands; it returns early when done, and otherwise ends with the command channel. */
    method Run(commands: seq<Command>) returns (done: bool)
      requires Now(false) == START
      modifies this
      ensures Now(done) == After(cfg, commands)
    {
      hide Step;
      var i := 0;
      done := false;
      while i < |commands| && !done
        invariant 0 <= i <= |commands|
        invariant Now(done) == After(cfg, commands[..i])
        decreases |commands| - i
      {
        assert commands[..i + 1][..i] == commands[..i];
        match commands[i] {
          case PushAudio(chunk) =>
            done := PushChunk(chunk);
          case Commit =>
            CommitAudio();
            done := true;
          case Stop =>
            StopIs(cfg, Now(false));
            var _ := Send(Ended(Some("stopped")));
            done := true;
        }
        i := i + 1;
      }
      assert commands[..|commands|] == commands;
      if done {
        DoneStays(cfg, commands, i);
      }
    }
  }

  lemma StopIs(cfg: Config, s: State)
    requires !s.done
    ensures Step(cfg, s, Stop) == Sent(cfg, s, Ended(Some("stopped"))).(done := true)
  {}

  lemma {:induction false} DoneStays(cfg: Config, commands: seq<Command>, n: nat)
    requires n <= |commands| && After(cfg, commands[..n]).done
    ensures After(cfg, commands) == After(cfg, commands[..n])
    decreases |commands|
  {
    if n < |commands| {
      assert commands[..|commands| - 1][..n] == commands[..n];
      DoneStays(cfg, commands[..|commands| - 1], n);
    } else {
      assert commands[..n] == commands;
    }
  }

  // ---- What every session keeps ----

  /** All audio the commands push, in order. */
  function Pushed(commands: seq<Command>): seq<byte>
    decreases |commands|
  {
    if commands == [] then []
    else
      var c := commands[|commands| - 1];
      Pushed(commands[..|commands| - 1]) + if c.PushAudio? then c.chunk else []
  }

  function PartialCount(out: seq<Event>): nat
    decreases |out|
  {
    if out == [] then 0 else PartialCount(out[..|out| - 1]) + if out[|out| - 1].Partial? then 1 else 0
  }

  /** Only partials, each with text and different from the one before. */
  ghost predicate OnlyPartials(out: seq<Event>)
    decreases |out|
  {
    out != [] ==>
      var (before, e) := (out[..|out| - 1], out[|out| - 1]);
      e.Partial? && e.text != "" && (before != [] ==> before[|before| - 1] != e) && OnlyPartials(before)
  }

  /** `partials` partials come first; at most one ending follows. */
  ghost predicate WellShaped(out: seq<Event>, partials: nat) {
    partials <= |out| && OnlyPartials(out[..partials]) && (partials < |out| ==> IsEnding(out[partials..]))
  }

  ghost predicate IsEnding(e: seq<Event>) {
    || (|e| == 1 && (e[0].Error? || e[0].Final? || e[0] == Ended(Some("stopped"))))
    || (|e| == 2 && e[0].Final? && e[1] == Ended(None))
  }

  ghost predicate Spaced(partials: nat, trigger: nat, bytes: nat) { partials * trigger <= bytes }

  ghost predicate Inv(cfg: Config, s: State, commands: seq<Command>) {
    && s.lastBytes <= |s.buffered| && |s.buffered| <= |Pushed(commands)|
    && Spaced(PartialCount(s.out), cfg.trigger, s.lastBytes)
    && WellShaped(s.out, PartialCount(s.out))
    && (!s.done ==> Waiting(s, commands))
  }

  /** A session that is not done has buffered everything and sent only partials, of which it remembers the last. */
  ghost predicate Waiting(s: State, commands: seq<Command>) {
    && (forall i :: 0 <= i < |commands| ==> commands[i].PushAudio?)
    && s.buffered == Pushed(commands) && PartialCount(s.out) == |s.out|
    && (s.out == [] ==> s.lastText == None)
    && (s.out != [] ==> s.out[|s.out| - 1].Partial? && s.lastText == Some(s.out[|s.out| - 1].text))
  }

  lemma CountSnoc(out: seq<Event>, e: Event)
    ensures PartialCount(out + [e]) == PartialCount(out) + if e.Partial? then 1 else 0
  {
    assert (out + [e])[..|out|] == out;
  }

  lemma ShapeSnoc(out: seq<Event>, e: Event)
    requires WellShaped(out, |out|) && PartialCount(out) == |out|
    requires e.Partial? ==> e.text != "" && (out != [] ==> e != out[|out| - 1])
    requires e.Ended? ==> e == Ended(Some("stopped"))
    ensures WellShaped(out + [e], PartialCount(out + [e]))
  {
    CountSnoc(out, e);
    hide PartialCount;
    assert out[..|out|] == out == (out + [e])[..|out|];
    if e.Partial? {
      assert (out + [e])[..|out| + 1] == out + [e];
    } else {
      assert (out + [e])[|out|..] == [e];
    }
  }

  lemma ShapeFinal(out: seq<Event>, t: string)
    requires WellShaped(out, |out|) && PartialCount(out) == |out|
    ensures var all := out + [Final(t)] + [Ended(None)];
            PartialCount(all) == |out| && WellShaped(all, |out|)
  {
    CountSnoc(out, Final(t));
    CountSnoc(out + [Final(t)], Ended(None));
    hide PartialCount, OnlyPartials;
    var all := out + [Final(t)] + [Ended(None)];
    assert all[..|out|] == out == out[..|out|];
    assert all[|out|..] == [Final(t), Ended(None)];
  }

  /** The outcomes of a push: nothing sent, a partial, an error, or a receiver found gone. */
  lemma PushStep(cfg: Config, s: State, chunk: seq<byte>)
    requires !s.done && s.lastBytes <= |s.buffered|
    ensures var t := Step(cfg, s, PushAudio(chunk));
            && t.buffered == s.buffered + chunk && t.lastBytes <= |t.buffered| && s.lastBytes <= t.lastBytes
            && (t.done || (t.out == s.out && t.lastText == s.lastText) || exists text :: SendsPartial(cfg, s, t, text))
            && (t.done ==> t.out == s.out || exists message :: t.out == s.out + [Error(message)])
  {
    hide Trim;
    var t := Step(cfg, s, PushAudio(chunk));
    if !t.done && !(t.out == s.out && t.lastText == s.lastText) {
      assert SendsPartial(cfg, s, t, t.lastText.value);
    }
  }

  ghost predicate SendsPartial(cfg: Config, s: State, t: State, text: string) {
    && t.out == s.out + [Partial(text)] && t.lastText == Some(text) && text != "" && s.lastText != Some(text)
    && s.lastBytes + cfg.trigger <= t.lastBytes
  }

  lemma PushKeeps(cfg: Config, s: State, commands: seq<Command>, chunk: seq<byte>)
    requires !s.done && Inv(cfg, s, commands)
    ensures Inv(cfg, Step(cfg, s, PushAudio(chunk)), commands + [PushAudio(chunk)])
  {
    var t := Step(cfg, s, PushAudio(chunk));
    PushStep(cfg, s, chunk);
    assert (commands + [PushAudio(chunk)])[..|commands|] == commands;
    assert Pushed(commands + [PushAudio(chunk)]) == Pushed(commands) + chunk;
    hide Step, WellShaped, PartialCount, Pushed, Spaced;
    SpacedGrows(PartialCount(s.out), cfg.trigger, s.lastBytes, t.lastBytes);
    if t.done {
      if t.out != s.out {
        var message :| t.out == s.out + [Error(message)];
        CountSnoc(s.out, Error(message));
        ShapeSnoc(s.out, Error(message));
      }
    } else {
      assert forall i :: 0 <= i < |commands| ==> commands[i].PushAudio?;
      if t.out != s.out || t.lastText != s.lastText {
        var text :| SendsPartial(cfg, s, t, text);
        PartialKeeps(cfg, s, t, text);
      }
    }
  }

  lemma PartialKeeps(cfg: Config, s: State, t: State, text: string)
    requires WellShaped(s.out, |s.out|) && PartialCount(s.out) == |s.out| && Spaced(|s.out|, cfg.trigger, s.lastBytes)
    requires s.out != [] ==> s.out[|s.out| - 1].Partial? && s.lastText == Some(s.out[|s.out| - 1].text)
    requires SendsPartial(cfg, s, t, text)
    ensures WellShaped(t.out, PartialCount(t.out)) && PartialCount(t.out) == |t.out|
    ensures Spaced(|t.out|, cfg.trigger, t.lastBytes)
  {
    hide WellShaped, PartialCount, Spaced;
    CountSnoc(s.out, Partial(text));
    ShapeSnoc(s.out, Partial(text));
    Spacing(|s.out|, cfg.trigger, s.lastBytes, t.lastBytes);
  }

  lemma Spacing(n: nat, trigger: nat, before: nat, after: nat)
    requires Spaced(n, trigger, before) && before + trigger <= after
    ensures Spaced(n + 1, trigger, after)
  {}

  lemma SpacedGrows(n: nat, trigger: nat, before: nat, after: nat)
    requires Spaced(n, trigger, before) && before <= after
    ensures Spaced(n, trigger, after)
  {}

  lemma EndKeeps(cfg: Config, s: State, commands: seq<Command>, c: Command)
    requires !s.done && Inv(cfg, s, commands) && !c.PushAudio?
    ensures Inv(cfg, Step(cfg, s, c), commands + [c]) && Step(cfg, s, c).done
  {
    assert (commands + [c])[..|commands|] == commands;
    assert Pushed(commands + [c]) == Pushed(commands) + [];
    EndStep(cfg, s, c);
    var t := Step(cfg, s, c);
    hide Step, WellShaped, PartialCount, Pushed, Spaced, IsEnding;
    if |t.out| == |s.out| + 1 {
      CountSnoc(s.out, t.out[|s.out|]);
      ShapeSnoc(s.out, t.out[|s.out|]);
    } else if |t.out| == |s.out| + 2 {
      ShapeFinal(s.out, t.out[|s.out|].transcript);
    }
  }

  /** What a commit or stop sends: nothing to a receiver that is gone, else one ending of one or two events. */
  lemma EndStep(cfg: Config, s: State, c: Command)
    requires !s.done && !c.PushAudio?
    ensures var t := Step(cfg, s, c);
            && t.done && t.buffered == s.buffered && t.lastBytes == s.lastBytes
            && (t.out == s.out
                || (exists e :: t.out == s.out + [e] && (e.Error? || e.Final? || e == Ended(Some("stopped"))))
                || (exists text :: t.out == s.out + [Final(text)] + [Ended(None)]))
  {}

  lemma {:induction false} SessionKeeps(cfg: Config, commands: seq<Command>)
    ensures Inv(cfg, After(cfg, commands), commands)
    decreases |commands|
  {
    if commands == [] {
    } else {
      var (before, c) := (commands[..|commands| - 1], commands[|commands| - 1]);
      SessionKeeps(cfg, before);
      assert commands == before + [c];
      var s := After(cfg, before);
      if s.done {
        hide WellShaped;
      } else {
        hide Step, Inv;
        if c.PushAudio? {
          PushKeeps(cfg, s, before, c.chunk);
        } else {
          EndKeeps(cfg, s, before, c);
        }
      }
    }
  }

  /** For every sequence of commands and every transcriber: partials times the trigger is at most the bytes pushed. */
  lemma PartialsAreSpaced(cfg: Config, commands: seq<Command>)
    ensures PartialCount(After(cfg, commands).out) * cfg.trigger <= |Pushed(commands)|
  {
    SessionKeeps(cfg, commands);
    hide After, WellShaped, PartialCount;
  }

  /** The events: partials with text, no two in a row alike, then at most one ending. */
  lemma EventsAreWellShaped(cfg: Config, commands: seq<Command>)
    ensures WellShaped(After(cfg, commands).out, PartialCount(After(cfg, commands).out))
  {
    SessionKeeps(cfg, commands);
    hide After, WellShaped, PartialCount;
  }

  /**
   After pushes that have not ended the session, a commit transcribes exactly their
   concatenation, once, and ends it.
   */
  lemma CommitTranscribesEverything(cfg: Config, commands: seq<Command>)
    requires !After(cfg, commands).done
    ensures var (s, t) := (After(cfg, commands), After(cfg, commands + [Commit]));
            var r := cfg.transcribe(|s.calls|, Pushed(commands));
            && t.done && t.calls == s.calls + [Pushed(commands)]
            && (|s.out| < cfg.room ==>
                |t.out| > |s.out| && t.out[|s.out|] == if r.Ok? then Final(r.value) else Error(r.error))
            && (|s.out| + 1 < cfg.room && r.Ok? ==> t.out == s.out + [Final(r.value), Ended(None)])
  {
    SessionKeeps(cfg, commands);
    assert (commands + [Commit])[..|commands|] == commands;
    var s := After(cfg, commands);
    assert s.buffered == Pushed(commands);
    assert After(cfg, commands + [Commit]) == Step(cfg, s, Commit);
    hide After, Inv, Pushed;
    var r := cfg.transcribe(|s.calls|, s.buffered);
    if r.Ok? {
      assert s.out + [Final(r.value)] + [Ended(None)] == s.out + [Final(r.value), Ended(None)];
    }
  }

  /**
   A push sends a partial exactly when enough audio has come since the last and the
   trimmed text is new and not blank.
   */
  lemma PartialWhenDue(cfg: Config, commands: seq<Command>, chunk: seq<byte>)
    requires !After(cfg, commands).done && cfg.streaming && |After(cfg, commands).out| < cfg.room
    ensures var (s, t) := (After(cfg, commands), After(cfg, commands + [PushAudio(chunk)]));
            var r := cfg.transcribe(|s.calls|, Pushed(commands) + chunk);
            var due := |Pushed(commands) + chunk| >= s.lastBytes + cfg.trigger;
            && (t.out == s.out + [Partial(Trim(if r.Ok? then r.value else ""))] <==>
                  due && r.Ok? && Trim(r.value) != "" && s.lastText != Some(Trim(r.value)))
            && (t.out == s.out <==> !due || (r.Ok? && (Trim(r.value) == "" || s.lastText == Some(Trim(r.value)))))
            && (t.calls == s.calls <==> !due)
  {
    SessionKeeps(cfg, commands);
    assert (commands + [PushAudio(chunk)])[..|commands|] == commands;
    hide WellShaped, PartialCount, Trim;
    var s := After(cfg, commands);
    assert forall e: Event :: (s.out + [e])[|s.out|] == e;
  }
}
