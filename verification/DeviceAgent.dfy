/**
 The device agent's playback side: the tracker of one gateway connection
 and the players it drives. The outside world (does the player start, does a
 write reach it, does it exit with success in time) is an `Outcome` chosen by
 the environment for every message.
 */
module DeviceAgent {
  import opened Common
  import Base64

  /** The three play_audio commands a gateway sends. */
  datatype Command =
    | Start(task: TaskId)
    | Chunk(task: TaskId, data64: string)
    | Finish(task: TaskId)

  /** A Finished status carries the counts the agent puts in its message. */
  datatype TaskState = Started | Finished(chunkCount: nat, byteCount: nat) | Failed

  datatype Status = Status(task: TaskId, state: TaskState)

  /** `Bad(written)`: the operation failed, after `written` bytes when it was a write. */
  datatype Outcome = Good | Bad(written: nat)

  datatype Exit = Playing | Succeeded | Broken

  /** What a player process was given on standard input, and how it ended. */
  datatype Player = Player(received: seq<byte>, exit: Exit)

  datatype PlaybackTask = PlaybackTask(chunkCount: nat, byteCount: nat)

  /** The tracker's two collections, and the players of this connection. */
  datatype Tracker = Tracker(
    active: map<TaskId, PlaybackTask>,
    failedStarts: set<TaskId>,
    players: map<TaskId, Player>)

  const IDLE := Tracker(map[], {}, map[])

  predicate Terminal(state: TaskState) { !state.Started? }

  /** At most `n` leading bytes. */
  function Prefix(b: seq<byte>, n: nat): seq<byte> {
    if n < |b| then b[..n] else b
  }

  /** The player of `t` as the tracker knows it (one is recorded whenever a task is active). */
  function PlayerOf(k: Tracker, t: TaskId): Player {
    if t in k.players then k.players[t] else Player([], Playing)
  }

  /** The tracker after a playback task broke: its player is killed. */
  function Break(k: Tracker, t: TaskId, received: seq<byte>): Tracker {
    k.(active := k.active - {t}, players := k.players[t := Player(received, Broken)])
  }

  function HandleStart(k: Tracker, t: TaskId, o: Outcome): (Tracker, seq<Status>) {
    if t in k.active then (k, [Status(t, Failed)])
    else if o.Good? then
      (Tracker(k.active[t := PlaybackTask(0, 0)], k.failedStarts - {t}, k.players[t := Player([], Playing)]),
       [Status(t, Started)])
    else (k.(failedStarts := k.failedStarts + {t}), [Status(t, Failed)])
  }

  function HandleChunk(k: Tracker, t: TaskId, data64: string, o: Outcome): (Tracker, seq<Status>) {
    if t in k.active then
      var received := PlayerOf(k, t).received;
      var decoded := Base64.Decode(data64);
      if decoded.None? then (Break(k, t, received), [Status(t, Failed)])
      else if o.Bad? then (Break(k, t, received + Prefix(decoded.value, o.written)), [Status(t, Failed)])
      else
        var task := k.active[t];
        (k.(active := k.active[t := PlaybackTask(task.chunkCount + 1, task.byteCount + |decoded.value|)],
            players := k.players[t := Player(received + decoded.value, Playing)]),
         [])
    else if t in k.failedStarts then (k, [])
    else (k, [Status(t, Failed)])
  }

  function HandleFinish(k: Tracker, t: TaskId, o: Outcome): (Tracker, seq<Status>) {
    var cleared := k.(active := k.active - {t}, failedStarts := k.failedStarts - {t});
    if t in k.active then
      var received := PlayerOf(k, t).received;
      if o.Good? then
        (cleared.(players := k.players[t := Player(received, Succeeded)]),
         [Status(t, Finished(k.active[t].chunkCount, k.active[t].byteCount))])
      else
        (cleared.(players := k.players[t := Player(received, Broken)]), [Status(t, Failed)])
    else if t in k.failedStarts then (cleared, [])
    else (cleared, [Status(t, Failed)])
  }

  /** One gateway message: the new tracker and the statuses sent back. */
  function Handle(k: Tracker, m: Command, o: Outcome): (Tracker, seq<Status>) {
    match m
    case Start(t) => HandleStart(k, t, o)
    case Chunk(t, data64) => HandleChunk(k, t, data64, o)
    case Finish(t) => HandleFinish(k, t, o)
  }

  /** A message reports at most one status, for its own task, and leaves every other task alone. */
  lemma HandleIsLocal(k: Tracker, m: Command, o: Outcome, t: TaskId)
    ensures var (k', out) := Handle(k, m, o);
            && |out| <= 1 && (|out| == 1 ==> out[0].task == m.task)
            && (t != m.task ==>
                  && (t in k'.active <==> t in k.active) && (t in k.active ==> k'.active[t] == k.active[t])
                  && (t in k'.players <==> t in k.players) && (t in k.players ==> k'.players[t] == k.players[t])
                  && (t in k'.failedStarts <==> t in k.failedStarts))
  {}

  /** The connection is gone: every active player is killed. */
  function AbortAll(k: Tracker): Tracker {
    k.(active := map[],
       players := map t | t in k.players ::
                    if t in k.active then Player(k.players[t].received, Broken) else k.players[t])
  }

  /** The tracker as the source keeps it, changed message by message. */
  class TaskTracker {
    var playAudioTasks: map<TaskId, PlaybackTask>
    var failedPlayAudioStarts: set<TaskId>
    var players: map<TaskId, Player>
    var sent: seq<Status>

    function View(): Tracker
      reads this
    {
      Tracker(playAudioTasks, failedPlayAudioStarts, players)
    }

    constructor ()
      ensures View() == IDLE && sent == []
    {
      playAudioTasks, failedPlayAudioStarts, players, sent := map[], {}, map[], [];
    }

    method FinishFailedTask(t: TaskId, received: seq<byte>)
      modifies this
      ensures View() == Break(old(View()), t, received)
      ensures sent == old(sent) + [Status(t, Failed)]
    {
      playAudioTasks := playAudioTasks - {t};
      players := players[t := Player(received, Broken)];
      sent := sent + [Status(t, Failed)];
    }

    method HandleGatewayMessage(m: Command, o: Outcome)
      modifies this
      ensures (View(), sent) == (Handle(old(View()), m, o).0, old(sent) + Handle(old(View()), m, o).1)
    {
      match m
      case Start(t) =>
        if t in playAudioTasks {
          sent := sent + [Status(t, Failed)];
        } else if o.Good? {
          failedPlayAudioStarts := failedPlayAudioStarts - {t};
          playAudioTasks := playAudioTasks[t := PlaybackTask(0, 0)];
          players := players[t := Player([], Playing)];
          sent := sent + [Status(t, Started)];
        } else {
          failedPlayAudioStarts := failedPlayAudioStarts + {t};
          sent := sent + [Status(t, Failed)];
        }
      case Chunk(t, data64) =>
        if t in playAudioTasks {
          var received := PlayerOf(View(), t).received;
          var decoded := Base64.Decode(data64);
          if decoded.None? {
            FinishFailedTask(t, received);
            return;
          }
          if o.Bad? {
            FinishFailedTask(t, received + Prefix(decoded.value, o.written));
            return;
          }
          var task := playAudioTasks[t];
          playAudioTasks := playAudioTasks[t := PlaybackTask(task.chunkCount + 1, task.byteCount + |decoded.value|)];
          players := players[t := Player(received + decoded.value, Playing)];
        } else if t !in failedPlayAudioStarts {
          sent := sent + [Status(t, Failed)];
        }
        assert old(sent) + [] == old(sent);
      case Finish(t) =>
        var wasActive, wasFailed := t in playAudioTasks, t in failedPlayAudioStarts;
        var received := PlayerOf(View(), t).received;
        var task := if wasActive then playAudioTasks[t] else PlaybackTask(0, 0);
        playAudioTasks := playAudioTasks - {t};
        failedPlayAudioStarts := failedPlayAudioStarts - {t};
        if wasActive {
          players := players[t := Player(received, if o.Good? then Succeeded else Broken)];
          sent := sent + [Status(t, if o.Good? then Finished(task.chunkCount, task.byteCount) else Failed)];
        } else if !wasFailed {
          sent := sent + [Status(t, Failed)];
        }
        assert old(sent) + [] == old(sent);
    }

    method AbortAllPlaybackTasks()
      modifies this
      ensures View() == AbortAll(old(View())) && sent == old(sent)
    {
      var ids := playAudioTasks.Keys;
      var todo := ids;
      while todo != {}
        invariant todo <= ids
        invariant playAudioTasks == map t | t in old(playAudioTasks) && t in todo :: old(playAudioTasks)[t]
        invariant players == map t | t in old(players) ::
                               if t in ids - todo then Player(old(players)[t].received, Broken) else old(players)[t]
        invariant failedPlayAudioStarts == old(failedPlayAudioStarts) && sent == old(sent)
      {
        var t :| t in todo;
        playAudioTasks := playAudioTasks - {t};
        if t in players {
          players := players[t := Player(players[t].received, Broken)];
        }
        todo := todo - {t};
      }
      assert playAudioTasks == map[];
    }
  }

  // ---- Every run of one connection ----

  datatype Turn = Turn(message: Command, outcome: Outcome)

  /** The tracker and all statuses after the turns, in order. */
  function Play(turns: seq<Turn>): (Tracker, seq<Status>) {
    if turns == [] then (IDLE, [])
    else
      var (k, out) := Play(turns[..|turns| - 1]);
      var last := turns[|turns| - 1];
      var (k', more) := Handle(k, last.message, last.outcome);
      (k', out + more)
  }

  /** Active and failed-to-start tasks are disjoint, and each active task has a live player given its byte count. */
  ghost predicate Consistent(k: Tracker) {
    && k.active.Keys !! k.failedStarts
    && forall t :: t in k.active ==>
         t in k.players && k.players[t].exit == Playing
         && |k.players[t].received| == k.active[t].byteCount
  }

  lemma HandleKeepsConsistent(k: Tracker, m: Command, o: Outcome)
    requires Consistent(k)
    ensures Consistent(Handle(k, m, o).0)
  {
    hide Base64.Decode;
  }

  /** In every run a task is never both active and marked as failed to start, and each active task has a live player. */
  lemma {:induction false} ActiveAndFailedAreDisjoint(turns: seq<Turn>)
    ensures Consistent(Play(turns).0)
  {
    if turns != [] {
      ActiveAndFailedAreDisjoint(turns[..|turns| - 1]);
      hide Consistent;
      HandleKeepsConsistent(Play(turns[..|turns| - 1]).0, turns[|turns| - 1].message, turns[|turns| - 1].outcome);
    }
  }

  /** The turns whose message names `t`. */
  function TurnsOf(t: TaskId, turns: seq<Turn>): seq<Turn> {
    if turns == [] then []
    else
      TurnsOf(t, turns[..|turns| - 1])
      + if turns[|turns| - 1].message.task == t then [turns[|turns| - 1]] else []
  }

  function StatusesOf(t: TaskId, out: seq<Status>): seq<Status> {
    if out == [] then []
    else
      StatusesOf(t, out[..|out| - 1])
      + if out[|out| - 1].task == t then [out[|out| - 1]] else []
  }

  lemma StatusesOfAppend(t: TaskId, out: seq<Status>, more: seq<Status>)
    requires |more| <= 1
    ensures StatusesOf(t, out + more) ==
            StatusesOf(t, out) + if |more| == 1 && more[0].task == t then more else []
  {
    if |more| == 1 {
      assert (out + more)[..|out|] == out;
    } else {
      assert out + more == out;
    }
  }

  /** A start that failed, then any chunks, and possibly the finish. */
  ghost predicate FailedStartScript(ts: seq<Turn>) {
    && ts != []
    && ts[0].message.Start? && ts[0].outcome.Bad?
    && (forall i :: 1 <= i < |ts| ==> !ts[i].message.Start?)
    && (forall i :: 1 <= i < |ts| - 1 ==> ts[i].message.Chunk?)
  }

  /** `t`'s start failed: it has no player and no later report. */
  ghost predicate OnlyReportedFailed(t: TaskId, k: Tracker, out: seq<Status>, finished: bool) {
    && StatusesOf(t, out) == [Status(t, Failed)]
    && t !in k.active && t !in k.players && (t in k.failedStarts <==> !finished)
  }

  lemma FailedStart(k: Tracker, m: Command, o: Outcome, t: TaskId)
    requires m == Start(t) && o.Bad? && t !in k.active
    ensures var (k', out) := Handle(k, m, o);
            out == [Status(t, Failed)] && k'.active == k.active && k'.players == k.players && t in k'.failedStarts
  {}

  lemma AfterFailedStart(k: Tracker, m: Command, o: Outcome, t: TaskId)
    requires m.task == t && !m.Start? && t !in k.active && t in k.failedStarts
    ensures var (k', out) := Handle(k, m, o);
            out == [] && t !in k'.active && k'.players == k.players && (t in k'.failedStarts <==> !m.Finish?)
  {}

  lemma ScriptPrefix(ts: seq<Turn>, us: seq<Turn>, last: Turn)
    requires FailedStartScript(ts) && ts == us + [last] && us != []
    ensures FailedStartScript(us) && !us[|us| - 1].message.Finish? && !last.message.Start?
  {
    assert forall i :: 0 <= i < |us| ==> us[i] == ts[i];
    assert last == ts[|us|];
  }

  /**
   Whatever else the connection carries in between, a task whose start failed is
   reported Failed exactly once, never gets a player, and is forgotten at its finish.
   */
  lemma {:induction false} FailedStartReportsOnce(turns: seq<Turn>, t: TaskId)
    requires FailedStartScript(TurnsOf(t, turns))
    ensures var ts := TurnsOf(t, turns);
            OnlyReportedFailed(t, Play(turns).0, Play(turns).1, ts[|ts| - 1].message.Finish?)
  {
    var (init, last) := (turns[..|turns| - 1], turns[|turns| - 1]);
    var (k, out) := Play(init);
    HandleIsLocal(k, last.message, last.outcome, t);
    StatusesOfAppend(t, out, Handle(k, last.message, last.outcome).1);
    var (ts, us) := (TurnsOf(t, turns), TurnsOf(t, init));
    assert ts == us + if last.message.task == t then [last] else [];
    hide Handle, StatusesOf, TurnsOf;
    if last.message.task != t {
      assert us + [] == us;
      FailedStartReportsOnce(init, t);
    } else if us == [] {
      assert [] + [last] == [last];
      NeverMentioned(init, t);
      FailedStart(k, last.message, last.outcome, t);
    } else {
      ScriptPrefix(ts, us, last);
      hide FailedStartScript;
      FailedStartReportsOnce(init, t);
      AfterFailedStart(k, last.message, last.outcome, t);
    }
  }

  lemma {:induction false} NeverMentioned(turns: seq<Turn>, t: TaskId)
    requires TurnsOf(t, turns) == []
    ensures var (k, out) := Play(turns);
            StatusesOf(t, out) == [] && t !in k.active && t !in k.failedStarts && t !in k.players
  {
    if turns != [] {
      var init := turns[..|turns| - 1];
      var last := turns[|turns| - 1];
      var (k, out) := Play(init);
      assert last.message.task != t;
      NeverMentioned(init, t);
      HandleIsLocal(k, last.message, last.outcome, t);
      StatusesOfAppend(t, out, Handle(k, last.message, last.outcome).1);
    }
  }
}
