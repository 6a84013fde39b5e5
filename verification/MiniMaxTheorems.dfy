/**
 What every run of a MiniMax session guarantees, whatever the interleaving of
 client commands and upstream events.
 */
module MiniMaxTheorems {
  import opened Common
  import opened Text
  import opened MiniMaxSession
  import MiniMaxAudio

  // ---- Readings of the log ----

  function FrameText(f: Frame): string {
    match f
    case TaskStart(first) => if first.Some? then first.value else ""
    case TaskContinue(text) => text
    case TaskFinish => ""
    case Pong => ""
  }

  /** All text sent upstream, in order. */
  function SentText(log: seq<Entry>): string {
    if log == [] then ""
    else
      var e := log[|log| - 1];
      SentText(log[..|log| - 1]) + if e.Sent? then FrameText(e.frame) else ""
  }

  /** All text the client appended, in order. */
  function Appended(log: seq<Entry>): string {
    if log == [] then ""
    else
      var e := log[|log| - 1];
      Appended(log[..|log| - 1]) +
      if e.Got? && e.input.Client? && e.input.command.Append? then e.input.command.delta else ""
  }

  predicate IsCommit(e: Entry) { e.Got? && e.input.Client? && e.input.command.Commit? }

  predicate IsStop(e: Entry) { e.Got? && e.input.Client? && e.input.command.Stop? }

  predicate IsStartedEvent(e: Entry) {
    && e.Got? && e.input.Upstream? && e.input.message.TextEvent?
    && !e.input.message.providerError && e.input.message.kind.TaskStarted?
  }

  /** What the client is owed: streamed text as it comes, buffered text trimmed at every commit. */
  function Owed(mode: Mode, log: seq<Entry>): string {
    if mode.Streaming? then Appended(log)
    else if log == [] then ""
    else
      Owed(mode, log[..|log| - 1]) + if IsCommit(log[|log| - 1]) then Trim(Appended(log[..|log| - 1])) else ""
  }

  function Commits(log: seq<Entry>): nat {
    if log == [] then 0 else Commits(log[..|log| - 1]) + if IsCommit(log[|log| - 1]) then 1 else 0
  }

  function Starts(log: seq<Entry>): nat {
    if log == [] then 0
    else Starts(log[..|log| - 1]) + if log[|log| - 1].Sent? && log[|log| - 1].frame.TaskStart? then 1 else 0
  }

  predicate SeenStarted(log: seq<Entry>) {
    exists i :: 0 <= i < |log| && IsStartedEvent(log[i])
  }

  lemma Snoc<T>(log: seq<T>, e: T)
    ensures (log + [e])[..|log|] == log && (log + [e])[|log|] == e
  {}

  lemma SeenStartedSnoc(log: seq<Entry>, e: Entry)
    ensures SeenStarted(log + [e]) <==> SeenStarted(log) || IsStartedEvent(e)
  {
    if SeenStarted(log) {
      var i :| 0 <= i < |log| && IsStartedEvent(log[i]);
      assert IsStartedEvent((log + [e])[i]);
    }
    if IsStartedEvent(e) {
      assert IsStartedEvent((log + [e])[|log|]);
    }
  }

  /** Every task_continue in the log comes after a task_started event. */
  ghost predicate ContinuesAfterStart(log: seq<Entry>) {
    forall i :: 0 <= i < |log| && log[i].Sent? && log[i].frame.TaskContinue? ==> SeenStarted(log[..i])
  }

  // ---- Text: nothing lost, repeated or reordered ----

  /** What has been sent, then `rest`, is exactly what is owed. */
  ghost predicate Balanced(env: Env, log: seq<Entry>, rest: string) {
    SentText(log) + rest == Owed(env.mode, log)
  }

  /** A failed write can only cut the end off. */
  ghost predicate TextOk(env: Env, s: Session) {
    && (s.end != Some(Failed) ==> Balanced(env, s.log, Concat(s.pending)))
    && SentText(s.log) <= Owed(env.mode, s.log)
    && (env.mode.Buffered? ==> s.buffered == Appended(s.log))
  }

  lemma SentChangesNoDebt(mode: Mode, log: seq<Entry>, f: Frame)
    ensures Owed(mode, log + [Sent(f)]) == Owed(mode, log)
    ensures SentText(log + [Sent(f)]) == SentText(log) + FrameText(f)
    ensures Appended(log + [Sent(f)]) == Appended(log)
  {
    Snoc(log, Sent(f));
  }

  /** What an input adds to the debt. */
  function Debt(mode: Mode, log: seq<Entry>, x: Input): string {
    if mode.Streaming? then (if x.Client? && x.command.Append? then x.command.delta else "")
    else if x == Client(Commit) then Trim(Appended(log)) else ""
  }

  lemma GotAddsDebt(mode: Mode, log: seq<Entry>, x: Input)
    ensures Owed(mode, log + [Got(x)]) == Owed(mode, log) + Debt(mode, log, x)
    ensures SentText(log + [Got(x)]) == SentText(log)
    ensures Appended(log + [Got(x)]) == Appended(log) + if x.Client? && x.command.Append? then x.command.delta else ""
  {
    Snoc(log, Got(x));
  }

  lemma SendPays(env: Env, s: Session, f: Frame, rest: string)
    requires s.end.None? && Balanced(env, s.log, FrameText(f) + rest)
    ensures var s' := Send(env, s, f);
            && (s'.end.None? ==> Balanced(env, s'.log, rest))
            && SentText(s'.log) <= Owed(env.mode, s'.log)
            && Appended(s'.log) == Appended(s.log)
            && (s'.end.None? || (s'.end == Some(Failed) && s'.log == s.log))
  {
    hide FrameCount, FrameText, SentText, Owed, Appended;
    SentChangesNoDebt(env.mode, s.log, f);
    assert SentText(s.log) + (FrameText(f) + rest) == SentText(s.log) + FrameText(f) + rest;
  }

  lemma {:induction false} SendAllPays(env: Env, s: Session, texts: seq<string>, rest: string)
    requires s.end.None? && Balanced(env, s.log, Concat(texts) + rest)
    ensures var s' := SendAll(env, s, texts);
            && s'.(log := s.log, end := s.end) == s
            && (s'.end.None? ==> Balanced(env, s'.log, rest))
            && SentText(s'.log) <= Owed(env.mode, s'.log)
            && Appended(s'.log) == Appended(s.log)
            && (s'.end.None? || s'.end == Some(Failed))
  {
    hide Concat, Owed, SentText, Appended, FrameCount, Balanced;
    if texts == [] {
      NothingToSend(env, s.log, rest);
    } else {
      var init := texts[..|texts| - 1];
      var last := texts[|texts| - 1];
      LastToSend(env, s.log, texts, rest);
      SendAllPays(env, s, init, last + rest);
      var t := SendAll(env, s, init);
      if t.end.None? {
        SendPays(env, t, TaskContinue(last), rest);
      }
    }
  }

  lemma NothingToSend(env: Env, log: seq<Entry>, rest: string)
    requires Balanced(env, log, Concat([]) + rest)
    ensures Balanced(env, log, rest) && SentText(log) <= Owed(env.mode, log)
  {
    assert Concat<char>([]) + rest == rest;
  }

  lemma LastToSend(env: Env, log: seq<Entry>, texts: seq<string>, rest: string)
    requires texts != [] && Balanced(env, log, Concat(texts) + rest)
    ensures Balanced(env, log, Concat(texts[..|texts| - 1]) + (texts[|texts| - 1] + rest))
  {
    var init := texts[..|texts| - 1];
    assert texts == init + [texts[|texts| - 1]];
    ConcatSnoc(init, texts[|texts| - 1]);
    hide Concat, SentText, Owed;
    Reassociate(Concat(init), texts[|texts| - 1], rest);
  }

  lemma Reassociate(a: string, b: string, c: string)
    ensures (a + b) + c == a + (b + c)
  {}

  /** An audio payload touches no text. */
  lemma AudioKeepsLog(env: Env, s: Session, payload: Option<string>, isFinal: bool)
    ensures var s' := OnAudio(env, s, payload, isFinal);
            && s'.(sequence := s.sequence, audio := s.audio, end := s.end) == s
            && (s.end.Some? ==> s' == s)
  {
    hide MiniMaxAudio.DecodeMiniMaxAudio, Trim;
  }

  lemma StartedKeepsText(env: Env, s: Session)
    requires s.end.None? && TextOk(env, s)
    ensures TextOk(env, OnStarted(env, s)) && (OnStarted(env, s).end.Some? ==> OnStarted(env, s).end == Some(Failed))
  {
    hide SentText, Owed, Appended, FrameCount;
    var ready := s.(started := true, pending := []);
    assert Concat(s.pending) + "" == Concat(s.pending);
    SendAllPays(env, ready, s.pending, "");
    var flushed := SendAll(env, ready, s.pending);
    if s.committed && flushed.end.None? {
      SendPays(env, flushed, TaskFinish, "");
    }
  }

  lemma MessageKeepsText(env: Env, s: Session, m: Message)
    requires s.end.None? && TextOk(env, s)
    ensures TextOk(env, OnMessage(env, s, m))
  {
    hide Balanced, SentText, Owed, Appended, Concat, Send, OnStarted, OnAudio;
    match m
    case TextEvent(providerError, kind, audio, isFinal) =>
      if !providerError && !kind.TaskFailed? && !kind.TaskFinished? {
        StartedKeepsText(env, s);
        AudioKeepsLog(env, if kind.TaskStarted? then OnStarted(env, s) else s, audio, isFinal);
      }
    case Ping =>
      PingKeepsText(env, s);
    case _ =>
  }

  lemma PingKeepsText(env: Env, s: Session)
    requires s.end.None? && TextOk(env, s)
    ensures TextOk(env, Send(env, s, Pong))
  {
    hide Balanced, SentText, Owed, Appended, Concat;
    assert FrameText(Pong) + Concat(s.pending) == Concat(s.pending);
    SendPays(env, s, Pong, Concat(s.pending));
  }

  lemma SendStartPays(env: Env, s: Session, text: string, rest: string)
    requires s.end.None? && Balanced(env, s.log, text + rest)
    ensures var s' := SendStart(env, s, Some(text));
            && (s'.end.None? ==> Balanced(env, s'.log, rest))
            && SentText(s'.log) <= Owed(env.mode, s'.log)
            && Appended(s'.log) == Appended(s.log)
            && (s'.end.None? || s'.end == Some(Failed))
  {
    SendPays(env, s, TaskStart(Some(text)), rest);
  }

  /** New text goes out, or to the end of the queue; either way the debt is met in order. */
  lemma TextGoesOut(env: Env, s: Session, text: string)
    requires s.end.None? && Balanced(env, s.log, Concat(s.pending) + text)
    requires s.pending != [] ==> !s.started && s.taskStartSent
    requires env.mode.Buffered? ==> s.buffered == Appended(s.log)
    ensures s.started ==> var s' := Send(env, s, TaskContinue(text));
                          TextOk(env, s') && (s'.end.None? || s'.end == Some(Failed))
    ensures !s.started && !s.taskStartSent ==> TextOk(env, SendStart(env, s, Some(text)))
    ensures !s.started && s.taskStartSent ==> TextOk(env, s.(pending := s.pending + [text]))
  {
    if s.pending == [] {
      assert Concat(s.pending) + text == text + "";
      SendPays(env, s, TaskContinue(text), "");
      SendStartPays(env, s, text, "");
    }
    ConcatSnoc(s.pending, text);
  }

  /** No waiting text once started; waiting text only after the task_start. */
  ghost predicate QueueOk(s: Session) {
    s.pending != [] ==> !s.started && s.taskStartSent
  }

  lemma AppendKeepsText(env: Env, s: Session, delta: string)
    requires s.end.None? && TextOk(env, s) && QueueOk(s)
    ensures TextOk(env, Turn(env, s, Client(Append(delta))))
  {
    var t := s.(log := s.log + [Got(Client(Append(delta)))]);
    GotAddsDebt(env.mode, s.log, Client(Append(delta)));
    if env.mode.Streaming? {
      assert SentText(s.log) + (Concat(s.pending) + delta) == SentText(s.log) + Concat(s.pending) + delta;
      if delta != "" {
        TextGoesOut(env, t, delta);
      } else {
        assert Owed(env.mode, s.log) + delta == Owed(env.mode, s.log);
      }
    } else if delta == "" {
      assert Appended(s.log) + delta == Appended(s.log);
    }
  }

  lemma CommitKeepsText(env: Env, s: Session)
    requires s.end.None? && TextOk(env, s) && QueueOk(s)
    ensures TextOk(env, Turn(env, s, Client(Commit)))
  {
    hide SentText, Owed, Appended, FrameCount, Trim;
    var c := s.(log := s.log + [Got(Client(Commit))], committed := true);
    GotAddsDebt(env.mode, s.log, Client(Commit));
    if env.mode.Buffered? {
      var text := Trim(s.buffered);
      assert SentText(s.log) + (Concat(s.pending) + text) == SentText(s.log) + Concat(s.pending) + text;
      if text != "" {
        TextGoesOut(env, c, text);
        var sent := Send(env, c, TaskContinue(text));
        if s.started && sent.end.None? {
          FinishKeepsText(env, sent);
        }
      }
    } else if s.started {
      FinishKeepsText(env, c);
    }
  }

  lemma FinishKeepsText(env: Env, s: Session)
    requires s.end.None? && TextOk(env, s)
    ensures TextOk(env, Send(env, s, TaskFinish)) && TextOk(env, OnStop(env, s))
  {
    assert "" + Concat(s.pending) == Concat(s.pending);
    SendPays(env, s, TaskFinish, Concat(s.pending));
  }

  /** An input that asks for nothing new. */
  lemma QuietInput(env: Env, s: Session, x: Input)
    requires TextOk(env, s) && !(x.Client? && (x.command.Append? || x.command.Commit?))
    ensures TextOk(env, s.(log := s.log + [Got(x)]))
  {
    GotAddsDebt(env.mode, s.log, x);
    assert Debt(env.mode, s.log, x) == "";
    assert Owed(env.mode, s.log) + "" == Owed(env.mode, s.log);
  }

  lemma TurnKeepsText(env: Env, s: Session, x: Input)
    requires TextOk(env, s) && (s.end.None? ==> QueueOk(s))
    ensures TextOk(env, Turn(env, s, x))
  {
    hide TextOk, OnMessage, OnAppend, OnCommit, OnStop;
    if s.end.None? {
      var t := s.(log := s.log + [Got(x)]);
      match x {
        case Client(Append(delta)) => AppendKeepsText(env, s, delta);
        case Client(Commit) => CommitKeepsText(env, s);
        case Client(Stop) =>
          QuietInput(env, s, x);
          FinishKeepsText(env, t);
        case Client(Hangup) =>
          QuietInput(env, s, x);
          EndKeepsText(env, t);
        case Upstream(m) =>
          QuietInput(env, s, x);
          MessageKeepsText(env, t, m);
      }
    }
  }

  lemma EndKeepsText(env: Env, s: Session)
    requires TextOk(env, s) && s.end.None?
    ensures TextOk(env, s.(end := Some(Stopped)))
  {}

  // ---- Order: task_start, task_started, text, task_finish ----

  function HasFinish(log: seq<Entry>): bool {
    log != [] && (HasFinish(log[..|log| - 1]) || log[|log| - 1] == Sent(TaskFinish))
  }

  function HasStop(log: seq<Entry>): bool {
    log != [] && (HasStop(log[..|log| - 1]) || IsStop(log[|log| - 1]))
  }

  /** After a task_finish nothing is sent but pongs; in particular there is at most one task_finish. */
  predicate Clean(log: seq<Entry>) {
    log != [] ==>
      && Clean(log[..|log| - 1])
      && (log[|log| - 1].Sent? && HasFinish(log[..|log| - 1]) ==> log[|log| - 1].frame.Pong?)
  }

  /** An input that makes the session send text or a finish once it is started and committed. */
  predicate Triggers(mode: Mode, e: Entry) {
    || IsCommit(e) || IsStartedEvent(e)
    || (mode.Streaming? && e.Got? && e.input.Client? && e.input.command.Append? && e.input.command.delta != "")
  }

  /** Some such input arrived although both a commit and task_started had already been taken. */
  predicate Late(mode: Mode, log: seq<Entry>) {
    log != [] &&
    var init := log[..|log| - 1];
    Late(mode, init) || (Commits(init) > 0 && SeenStarted(init) && Triggers(mode, log[|log| - 1]))
  }

  /** How one more entry changes every reading of the log. */
  lemma ReadSnoc(mode: Mode, log: seq<Entry>, e: Entry)
    ensures var log' := log + [e];
            && (HasFinish(log') <==> HasFinish(log) || e == Sent(TaskFinish))
            && (HasStop(log') <==> HasStop(log) || IsStop(e))
            && (Clean(log') <==> Clean(log) && (e.Sent? && HasFinish(log) ==> e.frame.Pong?))
            && (Late(mode, log') <==> Late(mode, log) || (Commits(log) > 0 && SeenStarted(log) && Triggers(mode, e)))
            && Commits(log') == Commits(log) + (if IsCommit(e) then 1 else 0)
            && Starts(log') == Starts(log) + (if e.Sent? && e.frame.TaskStart? then 1 else 0)
            && (SeenStarted(log') <==> SeenStarted(log) || IsStartedEvent(e))
            && (ContinuesAfterStart(log') <==>
                  ContinuesAfterStart(log) && (e.Sent? && e.frame.TaskContinue? ==> SeenStarted(log)))
  {
    Snoc(log, e);
    SeenStartedSnoc(log, e);
    var log' := log + [e];
    assert forall i :: 0 <= i < |log| ==> log'[i] == log[i] && log'[..i] == log[..i];
  }

  ghost predicate OrderOk(env: Env, s: Session) {
    && (s.started <==> SeenStarted(s.log))
    && (s.committed <==> Commits(s.log) > 0)
    && ContinuesAfterStart(s.log)
    && Starts(s.log) <= 1
    && (s.end.None? ==> (s.taskStartSent <==> Starts(s.log) == 1) && QueueOk(s))
    && (!HasStop(s.log) ==>
          && (HasFinish(s.log) ==> s.started && s.committed)
          && (s.end.None? && s.started && s.committed ==> HasFinish(s.log))
          && (!Late(env.mode, s.log) ==> Clean(s.log))
          && (Late(env.mode, s.log) && s.end != Some(Failed) ==> !Clean(s.log)))
    && (s.end.None? ==> !HasStop(s.log))
  }

  /** The effect of one frame on the readings; a failed write changes only `end`. */
  lemma SendReads(env: Env, s: Session, f: Frame)
    requires s.end.None?
    ensures var s' := Send(env, s, f);
            && s'.(log := s.log, end := None) == s
            && ((s'.log == s.log && s'.end == Some(Failed)) || (s'.end.None? && s'.log == s.log + [Sent(f)]))
            && (HasFinish(s'.log) ==> HasFinish(s.log) || f.TaskFinish?)
            && (HasStop(s'.log) <==> HasStop(s.log))
            && (Clean(s'.log) ==> Clean(s.log))
            && (Clean(s.log) && (HasFinish(s.log) ==> f.Pong?) ==> Clean(s'.log))
            && (s'.end.None? && HasFinish(s.log) && !f.Pong? ==> !Clean(s'.log))
            && (s'.end.None? && f.TaskFinish? ==> HasFinish(s'.log))
            && (s'.end.None? && !f.TaskFinish? ==> (HasFinish(s'.log) <==> HasFinish(s.log)))
            && (Late(env.mode, s'.log) <==> Late(env.mode, s.log))
            && Commits(s'.log) == Commits(s.log)
            && Starts(s.log) <= Starts(s'.log) <= Starts(s.log) + (if f.TaskStart? then 1 else 0)
            && (s'.end.None? && f.TaskStart? ==> Starts(s'.log) == Starts(s.log) + 1)
            && (SeenStarted(s'.log) <==> SeenStarted(s.log))
            && (ContinuesAfterStart(s.log) && (f.TaskContinue? ==> SeenStarted(s.log)) ==> ContinuesAfterStart(s'.log))
  {
    hide HasFinish, HasStop, Clean, Late, Commits, Starts, SeenStarted, ContinuesAfterStart, FrameCount;
    ReadSnoc(env.mode, s.log, Sent(f));
  }

  lemma {:induction false} SendAllReads(env: Env, s: Session, texts: seq<string>)
    requires s.end.None? && SeenStarted(s.log) && ContinuesAfterStart(s.log)
    ensures var s' := SendAll(env, s, texts);
            && s'.(log := s.log, end := None) == s
            && (s'.end.None? || s'.end == Some(Failed))
            && (HasFinish(s'.log) <==> HasFinish(s.log))
            && (HasStop(s'.log) <==> HasStop(s.log))
            && (Clean(s'.log) ==> Clean(s.log))
            && (Clean(s.log) && (HasFinish(s.log) ==> texts == []) ==> Clean(s'.log))
            && (Late(env.mode, s'.log) <==> Late(env.mode, s.log))
            && Commits(s'.log) == Commits(s.log) && Starts(s'.log) == Starts(s.log)
            && SeenStarted(s'.log) && ContinuesAfterStart(s'.log)
            && (texts == [] ==> s' == s)
  {
    hide HasFinish, HasStop, Clean, Late, Commits, Starts, SeenStarted, ContinuesAfterStart, FrameCount, Send;
    if texts != [] {
      SendAllReads(env, s, texts[..|texts| - 1]);
      var t := SendAll(env, s, texts[..|texts| - 1]);
      if t.end.None? {
        SendReads(env, t, TaskContinue(texts[|texts| - 1]));
      } else {
        SendAfterEnd(env, t, TaskContinue(texts[|texts| - 1]));
      }
    }
  }

  lemma SendAfterEnd(env: Env, s: Session, f: Frame)
    requires s.end.Some?
    ensures Send(env, s, f) == s
  {}

  lemma StartedKeepsOrder(env: Env, s: Session, e: Entry)
    requires OrderOk(env, s) && s.end.None? && IsStartedEvent(e)
    ensures OrderOk(env, OnStarted(env, s.(log := s.log + [e])))
    ensures var s' := OnStarted(env, s.(log := s.log + [e])); s'.end.None? || s'.end == Some(Failed)
  {
    hide HasFinish, HasStop, Clean, Late, Commits, Starts, SeenStarted, ContinuesAfterStart, FrameCount, Send, SendAll;
    var t := s.(log := s.log + [e]);
    ReadSnoc(env.mode, s.log, e);
    var ready := t.(started := true, pending := []);
    SendAllReads(env, ready, t.pending);
    var flushed := SendAll(env, ready, t.pending);
    if t.committed {
      if flushed.end.None? {
        SendReads(env, flushed, TaskFinish);
      } else {
        SendAfterEnd(env, flushed, TaskFinish);
      }
    }
  }

  /** An input that sends nothing, or a pong, or ends the session. */
  lemma QuietKeepsOrder(env: Env, s: Session, e: Entry, end: Option<End>)
    requires OrderOk(env, s) && s.end.None? && !Triggers(env.mode, e) && e.Got? && !IsStop(e)
    ensures var t := s.(log := s.log + [e]);
            OrderOk(env, t) && OrderOk(env, t.(end := end)) && OrderOk(env, Send(env, t, Pong))
  {
    hide HasFinish, HasStop, Clean, Late, Commits, Starts, SeenStarted, ContinuesAfterStart, FrameCount, Send;
    ReadSnoc(env.mode, s.log, e);
    SendReads(env, s.(log := s.log + [e]), Pong);
  }

  lemma AudioKeepsOrder(env: Env, s: Session, payload: Option<string>, isFinal: bool)
    requires OrderOk(env, s) && (s.end.None? || s.end == Some(Failed))
    ensures OrderOk(env, OnAudio(env, s, payload, isFinal))
  {
    hide HasFinish, HasStop, Clean, Late, Commits, Starts, SeenStarted, ContinuesAfterStart, OnAudio;
    AudioKeepsLog(env, s, payload, isFinal);
  }

  lemma MessageKeepsOrder(env: Env, s: Session, m: Message)
    requires OrderOk(env, s) && s.end.None?
    ensures OrderOk(env, Turn(env, s, Upstream(m)))
  {
    hide OrderOk, OnStarted, OnAudio, Send;
    var e := Got(Upstream(m));
    var t := s.(log := s.log + [e]);
    if m.TextEvent? && !m.providerError && m.kind.TaskStarted? {
      StartedKeepsOrder(env, s, e);
      AudioKeepsOrder(env, OnStarted(env, t), m.audio, m.isFinal);
    } else if m.TextEvent? && !m.providerError && m.kind.OtherKind? {
      QuietKeepsOrder(env, s, e, None);
      AudioKeepsOrder(env, t, m.audio, m.isFinal);
    } else if m.Binary? {
      QuietKeepsOrder(env, s, e, Some(Failed));
      EmitKeepsOrder(env, t, m.bytes);
    } else {
      QuietKeepsOrder(env, s, e, Some(Finished));
      QuietKeepsOrder(env, s, e, Some(Failed));
    }
  }

  lemma EmitKeepsOrder(env: Env, s: Session, bytes: seq<byte>)
    requires OrderOk(env, s) && OrderOk(env, s.(end := Some(Failed)))
    ensures OrderOk(env, Emit(env, s.(sequence := s.sequence + 1), bytes))
  {
    hide HasFinish, HasStop, Clean, Late, Commits, Starts, SeenStarted, ContinuesAfterStart;
  }

  lemma AppendKeepsOrder(env: Env, s: Session, delta: string)
    requires OrderOk(env, s) && s.end.None?
    ensures OrderOk(env, Turn(env, s, Client(Append(delta))))
  {
    hide HasFinish, HasStop, Clean, Late, Commits, Starts, SeenStarted, ContinuesAfterStart, FrameCount, Send;
    var e := Got(Client(Append(delta)));
    ReadSnoc(env.mode, s.log, e);
    var t := s.(log := s.log + [e]);
    SendReads(env, t, TaskContinue(delta));
    SendReads(env, t, TaskStart(Some(delta)));
  }

  lemma CommitKeepsOrder(env: Env, s: Session)
    requires OrderOk(env, s) && s.end.None?
    ensures OrderOk(env, Turn(env, s, Client(Commit)))
  {
    hide HasFinish, HasStop, Clean, Late, Commits, Starts, SeenStarted, ContinuesAfterStart, FrameCount, Send, Trim;
    var e := Got(Client(Commit));
    ReadSnoc(env.mode, s.log, e);
    var c := s.(log := s.log + [e], committed := true);
    SendReads(env, c, TaskFinish);
    if env.mode.Buffered? {
      var text := Trim(s.buffered);
      SendReads(env, c, TaskContinue(text));
      SendReads(env, c, TaskStart(Some(text)));
      var sent := Send(env, c, TaskContinue(text));
      if sent.end.None? {
        SendReads(env, sent, TaskFinish);
      } else {
        SendAfterEnd(env, sent, TaskFinish);
      }
    }
  }

  lemma StopKeepsOrder(env: Env, s: Session)
    requires OrderOk(env, s) && s.end.None?
    ensures OrderOk(env, Turn(env, s, Client(Stop)))
  {
    hide HasFinish, HasStop, Clean, Late, Commits, Starts, SeenStarted, ContinuesAfterStart, FrameCount, Send;
    var e := Got(Client(Stop));
    ReadSnoc(env.mode, s.log, e);
    SendReads(env, s.(log := s.log + [e]), TaskFinish);
  }

  lemma TurnKeepsOrder(env: Env, s: Session, x: Input)
    requires OrderOk(env, s)
    ensures OrderOk(env, Turn(env, s, x))
  {
    if s.end.None? {
      match x {
        case Upstream(m) => hide OrderOk, Turn; MessageKeepsOrder(env, s, m);
        case Client(Append(delta)) => hide OrderOk, Turn; AppendKeepsOrder(env, s, delta);
        case Client(Commit) => hide OrderOk, Turn; CommitKeepsOrder(env, s);
        case Client(Stop) => hide OrderOk, Turn; StopKeepsOrder(env, s);
        case Client(Hangup) => hide OrderOk; QuietKeepsOrder(env, s, Got(x), Some(Stopped));
      }
    }
  }

  lemma OpeningIsFine(env: Env)
    ensures OrderOk(env, Opening(env)) && TextOk(env, Opening(env))
  {
    assert Starts([]) == 0 && !SeenStarted([]);
    ReadSnoc(env.mode, [], Sent(TaskStart(None)));
    SentChangesNoDebt(env.mode, [], TaskStart(None));
    assert [] + [Sent(TaskStart(None))] == [Sent(TaskStart(None))];
  }

  lemma {:induction false} InvariantOfRuns(env: Env, inputs: seq<Input>)
    ensures OrderOk(env, Run(env, inputs)) && TextOk(env, Run(env, inputs))
  {
    if inputs == [] {
      OpeningIsFine(env);
    } else {
      hide TextOk, Turn;
      InvariantOfRuns(env, inputs[..|inputs| - 1]);
      TurnKeepsOrder(env, Run(env, inputs[..|inputs| - 1]), inputs[|inputs| - 1]);
      TurnKeepsText(env, Run(env, inputs[..|inputs| - 1]), inputs[|inputs| - 1]);
    }
  }

  // ---- The theorems ----

  /**
   Text is conserved and ordered: as long as no write has failed, what was sent
   followed by the waiting queue is exactly what the client is owed; after a
   failure what was sent is a beginning of it.
   */
  lemma TextIsConserved(env: Env, inputs: seq<Input>)
    ensures var s := Run(env, inputs);
            && (s.end != Some(Failed) ==> SentText(s.log) + Concat(s.pending) == Owed(env.mode, s.log))
            && SentText(s.log) <= Owed(env.mode, s.log)
  {
    hide OrderOk, Run;
    InvariantOfRuns(env, inputs);
  }

  /** task_start goes out at most once, and no task_continue before task_started. */
  lemma StartsInOrder(env: Env, inputs: seq<Input>)
    ensures Starts(Run(env, inputs).log) <= 1
    ensures ContinuesAfterStart(Run(env, inputs).log)
  {
    hide TextOk, Run;
    InvariantOfRuns(env, inputs);
  }

  /**
   Without a Stop, the finish is sent at most once and is the last thing said,
   pongs aside, exactly when no append, commit or task_started arrives after both
   a commit and task_started.
   */
  lemma FinishIsLastExactly(env: Env, inputs: seq<Input>)
    requires !HasStop(Run(env, inputs).log)
    ensures var s := Run(env, inputs);
            && (!Late(env.mode, s.log) ==> Clean(s.log))
            && (s.end != Some(Failed) ==> (Clean(s.log) <==> !Late(env.mode, s.log)))
            && (s.end.None? ==> (HasFinish(s.log) <==> SeenStarted(s.log) && Commits(s.log) > 0))
  {
    hide TextOk, Run;
    InvariantOfRuns(env, inputs);
  }

  // ---- Buffered input: the commit sends the trimmed buffer, once per commit ----

  /** The log up to and including its first commit. */
  function FirstCommit(log: seq<Entry>): seq<Entry> {
    if Commits(log) == 0 then log
    else if Commits(log[..|log| - 1]) == 0 then log
    else FirstCommit(log[..|log| - 1])
  }

  lemma {:induction false} NoCommitOwesNothing(log: seq<Entry>)
    requires Commits(log) == 0
    ensures Owed(Buffered, log) == ""
  {
    if log != [] {
      NoCommitOwesNothing(log[..|log| - 1]);
    }
  }

  lemma {:induction false} OneCommitOwesTheBuffer(log: seq<Entry>)
    requires Commits(log) == 1
    ensures Owed(Buffered, log) == Trim(Appended(FirstCommit(log)))
  {
    var init := log[..|log| - 1];
    if Commits(init) == 0 {
      NoCommitOwesNothing(init);
      assert Appended(log) == Appended(init);
    } else {
      OneCommitOwesTheBuffer(init);
    }
  }

  /** Every commit the session survives finds text in the buffer. */
  ghost predicate CommitsFindText(log: seq<Entry>) {
    log != [] ==>
      && CommitsFindText(log[..|log| - 1])
      && (IsCommit(log[|log| - 1]) ==> Trim(Appended(log[..|log| - 1])) != "")
  }

  lemma {:induction false} MoreCommitsOweMore(log: seq<Entry>)
    requires Commits(log) >= 1 && CommitsFindText(log)
    ensures |Owed(Buffered, log)| >= |Trim(Appended(FirstCommit(log)))|
    ensures Commits(log) >= 2 ==> |Owed(Buffered, log)| > |Trim(Appended(FirstCommit(log)))|
  {
    var init := log[..|log| - 1];
    if Commits(init) == 0 {
      OneCommitOwesTheBuffer(log);
    } else {
      MoreCommitsOweMore(init);
    }
  }

  /** `b` is `a` with frames after it. */
  ghost predicate OnlyFrames(a: seq<Entry>, b: seq<Entry>) {
    a <= b && forall i :: |a| <= i < |b| ==> b[i].Sent?
  }

  lemma {:induction false} SendAllOnlyFrames(env: Env, s: Session, texts: seq<string>)
    ensures OnlyFrames(s.log, SendAll(env, s, texts).log)
  {
    if texts != [] {
      SendAllOnlyFrames(env, s, texts[..|texts| - 1]);
    }
  }

  lemma StartedOnlyFrames(env: Env, s: Session)
    ensures OnlyFrames(s.log, OnStarted(env, s).log)
  {
    hide FrameCount;
    SendAllOnlyFrames(env, s.(started := true, pending := []), s.pending);
  }

  lemma MessageOnlyFrames(env: Env, s: Session, m: Message)
    ensures OnlyFrames(s.log, OnMessage(env, s, m).log)
  {
    hide OnStarted, OnAudio, FrameCount;
    StartedOnlyFrames(env, s);
    if m.TextEvent? {
      AudioKeepsLog(env, s, m.audio, m.isFinal);
      AudioKeepsLog(env, OnStarted(env, s), m.audio, m.isFinal);
    }
  }

  lemma CommandOnlyFrames(env: Env, s: Session, c: Command)
    ensures OnlyFrames(s.log, OnCommand(env, s, c).log)
  {
    hide FrameCount, Trim;
  }

  lemma TurnOnlyFrames(env: Env, s: Session, x: Input)
    requires s.end.None?
    ensures OnlyFrames(s.log + [Got(x)], Turn(env, s, x).log)
    ensures x == Client(Commit) && env.mode.Buffered? && Trim(s.buffered) == "" ==> Turn(env, s, x).end == Some(Failed)
  {
    hide OnMessage, OnlyFrames, Trim;
    var t := s.(log := s.log + [Got(x)]);
    match x
    case Upstream(m) => MessageOnlyFrames(env, t, m);
    case Client(c) => CommandOnlyFrames(env, t, c);
  }

  lemma {:induction false} FramesFindNoText(a: seq<Entry>, b: seq<Entry>)
    requires OnlyFrames(a, b) && CommitsFindText(a)
    ensures CommitsFindText(b)
  {
    if |a| < |b| {
      assert a <= b[..|b| - 1];
      assert b[|b| - 1].Sent?;
      FramesFindNoText(a, b[..|b| - 1]);
    } else {
      assert a == b;
    }
  }

  lemma {:induction false} SurvivingCommitsFindText(env: Env, inputs: seq<Input>)
    requires env.mode.Buffered? && Run(env, inputs).end != Some(Failed)
    ensures CommitsFindText(Run(env, inputs).log)
  {
    if inputs == [] {
      assert CommitsFindText([]);
      FramesFindNoText([], Run(env, inputs).log);
    } else {
      hide OrderOk, Turn;
      var s := Run(env, inputs[..|inputs| - 1]);
      var x := inputs[|inputs| - 1];
      if s.end.None? {
        SurvivingCommitsFindText(env, inputs[..|inputs| - 1]);
        InvariantOfRuns(env, inputs[..|inputs| - 1]);
        TurnOnlyFrames(env, s, x);
        Snoc(s.log, Got(x));
        FramesFindNoText(s.log + [Got(x)], Run(env, inputs).log);
      } else {
        EndedTurn(env, s, x);
        SurvivingCommitsFindText(env, inputs[..|inputs| - 1]);
      }
    }
  }

  lemma EndedTurn(env: Env, s: Session, x: Input)
    requires s.end.Some?
    ensures Turn(env, s, x) == s
  {}

  /**
   Buffered input: after a commit, sent text and queue together are exactly the
   trimmed buffer of the first commit if and only if there was no second commit.
   */
  lemma BufferedTextExactly(env: Env, inputs: seq<Input>)
    requires env.mode.Buffered? && Run(env, inputs).end != Some(Failed)
    requires Commits(Run(env, inputs).log) >= 1
    ensures var s := Run(env, inputs);
            SentText(s.log) + Concat(s.pending) == Trim(Appended(FirstCommit(s.log))) <==> Commits(s.log) == 1
  {
    hide OrderOk, Run;
    TextIsConserved(env, inputs);
    SurvivingCommitsFindText(env, inputs);
    MoreCommitsOweMore(Run(env, inputs).log);
    if Commits(Run(env, inputs).log) == 1 {
      OneCommitOwesTheBuffer(Run(env, inputs).log);
    }
  }

  // ---- The cases in which these guarantees fail do occur ----

  /** One more input. */
  lemma Then(env: Env, inputs: seq<Input>, x: Input) returns (longer: seq<Input>)
    ensures longer == inputs + [x] && Run(env, longer) == Turn(env, Run(env, inputs), x)
  {
    longer := inputs + [x];
    assert longer[..|inputs|] == inputs;
  }

  lemma SendSucceeds(env: Env, s: Session, f: Frame)
    requires s.end.None? && FrameCount(s.log) != env.failAt
    ensures Send(env, s, f) == s.(log := s.log + [Sent(f)])
    ensures FrameCount(s.log + [Sent(f)]) == FrameCount(s.log) + 1
  {
    Snoc(s.log, Sent(f));
  }

  lemma GotIsNoFrame(log: seq<Entry>, x: Input)
    ensures FrameCount(log + [Got(x)]) == FrameCount(log)
  {
    Snoc(log, Got(x));
  }

  /** A buffered session that has taken one text, before task_started. */
  lemma BufferedOnce(env: Env, delta: string) returns (inputs: seq<Input>)
    requires env.mode.Buffered? && env.failAt >= 1
    ensures inputs == [Client(Append(delta))]
    ensures Run(env, inputs) ==
            Session(false, true, false, delta, [], 0, [], [Sent(TaskStart(None)), Got(Client(Append(delta)))], None)
  {
    assert FrameCount([]) == 0;
    SendSucceeds(env, BLANK, TaskStart(None));
    assert [] + [Sent(TaskStart(None))] == [Sent(TaskStart(None))];
    assert Run(env, []).log == [Sent(TaskStart(None))];
    inputs := Then(env, [], Client(Append(delta)));
    assert "" + delta == delta;
  }

  /**
   Buffered input with two commits: any text is queued twice, since the commit leaves
   the buffer as it was.
   */
  lemma SecondCommitRepeats(env: Env, delta: string) returns (inputs: seq<Input>)
    requires env.mode.Buffered? && env.failAt >= 1 && Trim(delta) != ""
    ensures inputs == [Client(Append(delta)), Client(Commit), Client(Commit)]
    ensures var s := Run(env, inputs);
            && s.end.None? && Commits(s.log) == 2
            && SentText(s.log) + Concat(s.pending) == Trim(delta) + Trim(delta)
            && SentText(s.log) + Concat(s.pending) != Trim(Appended(FirstCommit(s.log)))
  {
    inputs := BufferedOnce(env, delta);
    hide Run, Trim, Turn, SentText, Concat, FirstCommit;
    var s0 := Run(env, inputs);
    var text := Trim(delta);
    CommitQueues(env, s0);
    inputs := Then(env, inputs, Client(Commit));
    CommitQueues(env, Run(env, inputs));
    inputs := Then(env, inputs, Client(Commit));
    var s := Run(env, inputs);
    assert s.pending == [] + [text] + [text];
    CommitTwice(s0.log, delta);
    ConcatSnoc([] + [text], text);
    ConcatSnoc([], text);
    NothingJoined();
    BufferedTextExactly(env, inputs);
  }

  lemma NothingJoined()
    ensures Concat<char>([]) == ""
  {}

  /** A commit before task_started queues the trimmed buffer and keeps the buffer. */
  lemma CommitQueues(env: Env, s: Session)
    requires env.mode.Buffered? && s.end.None? && !s.started && s.taskStartSent && Trim(s.buffered) != ""
    ensures Turn(env, s, Client(Commit)) ==
            s.(committed := true, pending := s.pending + [Trim(s.buffered)], log := s.log + [Got(Client(Commit))])
  {
    hide Trim;
  }

  lemma CommitTwice(log: seq<Entry>, delta: string)
    requires log == [Sent(TaskStart(None)), Got(Client(Append(delta)))]
    ensures var log' := log + [Got(Client(Commit))] + [Got(Client(Commit))];
            Commits(log') == 2 && SentText(log') == ""
  {
    var c := Got(Client(Commit));
    Snoc(log, c);
    Snoc(log + [c], c);
    assert log[..1] == [Sent(TaskStart(None))] && log[..1][..0] == [];
    assert Commits(log[..1][..0]) == 0 && SentText(log[..1][..0]) == "";
    assert Commits(log[..1]) == 0 && SentText(log[..1]) == "";
    assert Commits(log) == 0 && SentText(log) == "";
  }

  const STARTED_EVENT := Upstream(TextEvent(false, TaskStarted, None, false))

  /** A streaming session that has sent its first text, been started and been committed. */
  lemma StreamedAndCommitted(env: Env, first: string) returns (inputs: seq<Input>)
    requires env.mode.Streaming? && env.failAt >= 2 && first != ""
    ensures inputs == [Client(Append(first)), STARTED_EVENT, Client(Commit)]
    ensures var s := Run(env, inputs);
            && s == BLANK.(started := true, taskStartSent := true, committed := true, log := s.log)
            && FrameCount(s.log) == 2
            && !HasStop(s.log) && !Late(env.mode, s.log) && Commits(s.log) > 0 && SeenStarted(s.log)
  {
    RunOfNothing(env);
    hide Run, Turn, FrameCount, HasStop, Late, Commits, SeenStarted;
    var (x1, x3) := (Client(Append(first)), Client(Commit));
    FirstTextStarts(env, BLANK, first);
    inputs := Then(env, [], x1);
    ReadSnoc(env.mode, [], Got(x1));
    ReadSnoc(env.mode, [] + [Got(x1)], Sent(TaskStart(Some(first))));
    var s1 := Run(env, inputs);
    StartedAlone(env, s1);
    inputs := Then(env, inputs, STARTED_EVENT);
    ReadSnoc(env.mode, s1.log, Got(STARTED_EVENT));
    var s2 := Run(env, inputs);
    CommitFinishes(env, s2);
    inputs := Then(env, inputs, x3);
    ReadSnoc(env.mode, s2.log, Got(x3));
    ReadSnoc(env.mode, s2.log + [Got(x3)], Sent(TaskFinish));
    EmptyReads(env.mode);
  }

  lemma EmptyReads(mode: Mode)
    ensures !HasStop([]) && !Late(mode, []) && Commits([]) == 0 && !SeenStarted([])
  {}

  lemma FirstTextStarts(env: Env, s: Session, first: string)
    requires env.mode.Streaming? && s.end.None? && !s.started && !s.taskStartSent && first != ""
    requires FrameCount(s.log) != env.failAt
    ensures var x := Client(Append(first));
            var s' := Turn(env, s, x);
            && s' == s.(taskStartSent := true, log := s.log + [Got(x)] + [Sent(TaskStart(Some(first)))])
            && FrameCount(s'.log) == FrameCount(s.log) + 1
  {
    GotIsNoFrame(s.log, Client(Append(first)));
    SendSucceeds(env, s.(log := s.log + [Got(Client(Append(first)))]), TaskStart(Some(first)));
    hide Send, FrameCount;
  }

  lemma StartedAlone(env: Env, s: Session)
    requires s.end.None? && !s.committed && s.pending == []
    ensures var s' := Turn(env, s, STARTED_EVENT);
            && s' == s.(started := true, log := s.log + [Got(STARTED_EVENT)])
            && FrameCount(s'.log) == FrameCount(s.log)
  {
    GotIsNoFrame(s.log, STARTED_EVENT);
    hide FrameCount;
  }

  lemma CommitFinishes(env: Env, s: Session)
    requires env.mode.Streaming? && s.end.None? && s.started && FrameCount(s.log) != env.failAt
    ensures var s' := Turn(env, s, Client(Commit));
            && s' == s.(committed := true, log := s.log + [Got(Client(Commit))] + [Sent(TaskFinish)])
            && FrameCount(s'.log) == FrameCount(s.log) + 1
  {
    GotIsNoFrame(s.log, Client(Commit));
    SendSucceeds(env, s.(committed := true, log := s.log + [Got(Client(Commit))]), TaskFinish);
    hide Send, FrameCount;
  }

  lemma RunOfNothing(env: Env)
    requires env.mode.Streaming?
    ensures Run(env, []) == BLANK && FrameCount([]) == 0
  {}

  lemma TextContinues(env: Env, s: Session, second: string)
    requires env.mode.Streaming? && s.end.None? && s.started && second != "" && FrameCount(s.log) != env.failAt
    ensures var x := Client(Append(second));
            Turn(env, s, x) == s.(log := s.log + [Got(x)] + [Sent(TaskContinue(second))])
  {
    GotIsNoFrame(s.log, Client(Append(second)));
    SendSucceeds(env, s.(log := s.log + [Got(Client(Append(second)))]), TaskContinue(second));
    hide Send, FrameCount;
  }

  /** Text appended after the commit of a started streaming session goes out behind the finish. */
  lemma LateTextFollowsFinish(env: Env, first: string, second: string) returns (inputs: seq<Input>)
    requires env.mode.Streaming? && env.failAt >= 3 && first != "" && second != ""
    ensures inputs == [Client(Append(first)), STARTED_EVENT, Client(Commit), Client(Append(second))]
    ensures var s := Run(env, inputs);
            s.end.None? && !HasStop(s.log) && Late(env.mode, s.log) && !Clean(s.log)
  {
    hide Run, FrameCount, HasStop, Late, Commits, SeenStarted, Clean, Turn;
    inputs := StreamedAndCommitted(env, first);
    var s := Run(env, inputs);
    var x := Client(Append(second));
    TextContinues(env, s, second);
    inputs := Then(env, inputs, x);
    ReadSnoc(env.mode, s.log, Got(x));
    ReadSnoc(env.mode, s.log + [Got(x)], Sent(TaskContinue(second)));
    FinishIsLastExactly(env, inputs);
  }

  // ---- Audio ----

  ghost predicate AudioOk(env: Env, s: Session) {
    && (forall i :: 0 <= i < |s.audio| ==> s.audio[i].sequence == i + 1
                                           && s.audio[i].format == if i == 0 then env.format else None)
    && (s.end.None? ==> s.sequence == |s.audio|)
  }

  lemma OnAudioKeepsAudio(env: Env, s: Session, payload: Option<string>, isFinal: bool)
    requires AudioOk(env, s)
    ensures AudioOk(env, OnAudio(env, s, payload, isFinal))
  {
    hide MiniMaxAudio.DecodeMiniMaxAudio, Trim;
    if payload.Some? {
      MiniMaxAudio.DecodedIsNeverEmpty(Trim(payload.value));
    }
  }

  lemma {:induction false} SendAllKeepsAudio(env: Env, s: Session, texts: seq<string>)
    ensures SendAll(env, s, texts).(log := s.log, end := s.end) == s
    ensures s.end.Some? ==> SendAll(env, s, texts) == s
  {
    if texts != [] {
      SendAllKeepsAudio(env, s, texts[..|texts| - 1]);
    }
  }

  lemma MessageKeepsAudio(env: Env, s: Session, m: Message)
    requires AudioOk(env, s) && s.end.None?
    ensures AudioOk(env, OnMessage(env, s, m))
  {
    hide OnAudio, FrameCount, SendAll;
    SendAllKeepsAudio(env, s.(started := true, pending := []), s.pending);
    if m.TextEvent? {
      OnAudioKeepsAudio(env, s, m.audio, m.isFinal);
      if !m.providerError && m.kind.TaskStarted? {
        OnAudioKeepsAudio(env, OnStarted(env, s), m.audio, m.isFinal);
      }
    }
  }

  lemma CommandKeepsAudio(env: Env, s: Session, c: Command)
    requires AudioOk(env, s) && s.end.None?
    ensures AudioOk(env, OnCommand(env, s, c))
  {
    hide FrameCount, Trim;
  }

  lemma TurnKeepsAudio(env: Env, s: Session, x: Input)
    requires AudioOk(env, s)
    ensures AudioOk(env, Turn(env, s, x))
  {
    hide OnMessage, OnCommand;
    if s.end.None? {
      var t := s.(log := s.log + [Got(x)]);
      match x {
        case Upstream(m) => MessageKeepsAudio(env, t, m);
        case Client(c) => CommandKeepsAudio(env, t, c);
      }
    }
  }

  /** The chunks of a session are numbered 1, 2, 3, ... without gaps, and only the first names the format. */
  lemma {:induction false} AudioHasNoGaps(env: Env, inputs: seq<Input>)
    ensures AudioOk(env, Run(env, inputs))
  {
    if inputs != [] {
      hide Turn;
      AudioHasNoGaps(env, inputs[..|inputs| - 1]);
      TurnKeepsAudio(env, Run(env, inputs[..|inputs| - 1]), inputs[|inputs| - 1]);
    }
  }
}
