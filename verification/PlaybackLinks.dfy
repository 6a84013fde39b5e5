/**
 One connection between the gateway and an agent, seen by one play_audio request:
 what the connection carries for the request's task id since the request was
 submitted, and what its device makes of it.
 */
module PlaybackLinks {
  import opened Common
  import opened DeviceAgent
  import opened Playback
  import opened PlaybackWaiters
  import Base64

  // ---- Projections of the channel logs ----

  /** The commands for task `t`. */
  function Of(t: TaskId, cmds: seq<Command>): seq<Command> {
    if cmds == [] then []
    else
      var last := cmds[|cmds| - 1];
      Of(t, cmds[..|cmds| - 1]) + if last.task == t then [last] else []
  }

  /** The commands a request put on connection `c`. */
  function To(c: Conn, sends: seq<Send>): seq<Command> {
    if sends == [] then []
    else
      var last := sends[|sends| - 1];
      To(c, sends[..|sends| - 1]) + if last.conn == c then [last.cmd] else []
  }

  /** The audio that a sequence of commands carries. */
  function Heard(cmds: seq<Command>): seq<byte> {
    if cmds == [] then []
    else
      var last := cmds[|cmds| - 1];
      Heard(cmds[..|cmds| - 1])
      + if last.Chunk? && Base64.Decode(last.data64).Some? then Base64.Decode(last.data64).value else []
  }

  lemma OfSnoc(t: TaskId, cmds: seq<Command>, x: Command)
    ensures Of(t, cmds + [x]) == Of(t, cmds) + if x.task == t then [x] else []
  {
    assert (cmds + [x])[..|cmds|] == cmds;
  }

  lemma ToSnoc(c: Conn, sends: seq<Send>, x: Send)
    ensures To(c, sends + [x]) == To(c, sends) + if x.conn == c then [x.cmd] else []
  {
    assert (sends + [x])[..|sends|] == sends;
  }

  lemma {:induction false} OfPrefix(t: TaskId, cmds: seq<Command>, k: nat)
    requires k <= |cmds|
    ensures Of(t, cmds[..k]) <= Of(t, cmds)
  {
    if k < |cmds| {
      OfPrefix(t, cmds[..|cmds| - 1], k);
      assert cmds[..|cmds| - 1][..k] == cmds[..k];
    } else {
      assert cmds[..k] == cmds;
    }
  }

  lemma {:induction false} ToNone(c: Conn, sends: seq<Send>)
    requires forall k :: 0 <= k < |sends| ==> sends[k].conn != c
    ensures To(c, sends) == []
  {
    if sends != [] {
      ToNone(c, sends[..|sends| - 1]);
    }
  }

  lemma {:induction false} ToAll(c: Conn, sends: seq<Send>)
    requires forall k :: 0 <= k < |sends| ==> sends[k].conn == c
    ensures |To(c, sends)| == |sends|
    ensures forall k :: 0 <= k < |sends| ==> To(c, sends)[k] == sends[k].cmd
  {
    if sends != [] {
      ToAll(c, sends[..|sends| - 1]);
    }
  }

  lemma HeardSnoc(cmds: seq<Command>, x: Command)
    ensures Heard(cmds + [x]) ==
            Heard(cmds) + if x.Chunk? && Base64.Decode(x.data64).Some? then Base64.Decode(x.data64).value else []
  {
    assert (cmds + [x])[..|cmds|] == cmds;
  }

  // ---- The device's view of one task ----

  /** A task's start comes first and its finish last. */
  ghost predicate Shape(cmds: seq<Command>) {
    && (forall j :: 0 <= j < |cmds| && cmds[j].Start? ==> j == 0)
    && (forall j :: 0 <= j < |cmds| && cmds[j].Finish? ==> j == |cmds| - 1)
  }

  /** A start followed by chunks only. */
  ghost predicate Opened(cmds: seq<Command>) {
    cmds != [] && cmds[0].Start? && forall j :: 1 <= j < |cmds| ==> cmds[j].Chunk?
  }

  /** A player that still runs has received the audio taken so far, and its task counts it. */
  ghost predicate ActiveOk(k: Tracker, t: TaskId, pre: seq<Command>) {
    t in k.active ==>
      && Opened(pre)
      && t in k.players
      && k.players[t].received == Heard(pre[1..])
      && k.active[t] == PlaybackTask(|pre| - 1, |k.players[t].received|)
  }

  /** What a Finished status of task `t` says about the commands handled so far. */
  ghost predicate FinishedOk(k: Tracker, st: Status, pre: seq<Command>) {
    st.state.Finished? ==>
      && |pre| >= 2 && Opened(pre[..|pre| - 1]) && pre[|pre| - 1].Finish?
      && st.task in k.players
      && k.players[st.task] == Player(Heard(pre[1..|pre| - 1]), Succeeded)
      && st.state == Finished(|pre| - 2, |k.players[st.task].received|)
  }

  lemma ChunkKeepsActive(k: Tracker, t: TaskId, data64: string, o: Outcome, pre: seq<Command>)
    requires ActiveOk(k, t, pre)
    ensures ActiveOk(HandleChunk(k, t, data64, o).0, t, pre + [Chunk(t, data64)])
  {
    if t in k.active {
      var m := Chunk(t, data64);
      assert (pre + [m])[1..] == pre[1..] + [m];
      HeardSnoc(pre[1..], m);
    }
  }

  lemma FinishReportsExactly(k: Tracker, t: TaskId, o: Outcome, pre: seq<Command>)
    requires ActiveOk(k, t, pre)
    ensures var (k', out) := HandleFinish(k, t, o);
            forall i :: 0 <= i < |out| ==> FinishedOk(k', out[i], pre + [Finish(t)])
  {
    if t in k.active {
      var pre' := pre + [Finish(t)];
      assert pre'[..|pre'| - 1] == pre;
      assert pre'[1..|pre'| - 1] == pre[1..];
    }
  }

  /** One message for a play_audio id, on the tracker alone. */
  lemma HandleKeepsTask(k: Tracker, m: Command, o: Outcome, pre: seq<Command>)
    requires ActiveOk(k, m.task, pre)
    requires m.Start? ==> pre == []
    ensures var (k', out) := Handle(k, m, o);
            && ActiveOk(k', m.task, pre + [m])
            && forall i :: 0 <= i < |out| ==> FinishedOk(k', out[i], pre + [m])
  {
    match m
    case Start(t) =>
      assert (pre + [m])[1..] == [];
    case Chunk(t, data64) =>
      ChunkKeepsActive(k, t, data64, o, pre);
    case Finish(t) =>
      FinishReportsExactly(k, t, o, pre);
  }

  // ---- A connection since a request was submitted ----

  function PlayerAt(k: Tracker, t: TaskId): Option<Player> {
    if t in k.players then Some(k.players[t]) else None
  }

  /**
   A connection when the request was submitted: how many commands for its id it had
   carried, how many statuses it had sent, and the player of that id, if any.
   */
  datatype Mark = Mark(base: nat, heard: nat, player: Option<Player>)

  function MarkOf(l: Link, t: TaskId): Mark {
    Mark(|Of(t, l.sent)|, |l.statuses|, PlayerAt(l.tracker, t))
  }

  ghost predicate LastOf(statuses: seq<Status>, t: TaskId, i: nat) {
    forall j :: i < j < |statuses| ==> statuses[j].task != t
  }

  /** A new status of `t`, when `pre` has been handled; a Finished one is the last. */
  ghost predicate ReportOk(k: Tracker, statuses: seq<Status>, i: nat, t: TaskId, pre: seq<Command>)
    requires i < |statuses|
  {
    statuses[i].task == t ==>
      && pre != [] && FinishedOk(k, statuses[i], pre)
      && (statuses[i].state.Finished? ==> LastOf(statuses, t, i))
  }

  ghost predicate ReportsOk(k: Tracker, statuses: seq<Status>, t: TaskId, heard: nat, pre: seq<Command>) {
    forall i :: heard <= i < |statuses| ==> ReportOk(k, statuses, i, t, pre)
  }

  /** Until a command of the request is handled, nothing of its id happens here. */
  ghost predicate TrackerOk(k: Tracker, t: TaskId, player: Option<Player>, pre: seq<Command>) {
    ActiveOk(k, t, pre) && (pre == [] ==> t !in k.active && PlayerAt(k, t) == player)
  }

  /** The gateway is only going to hear of `t` what was reported since the mark. */
  ghost predicate ReadOk(l: Link, t: TaskId, heard: nat) {
    && (forall i :: l.read <= i < |l.statuses| && l.statuses[i].task == t ==> heard <= i)
    && (Holds(l.handler) && l.handler.status.task == t ==> heard <= l.read - 1)
  }

  /** `mine` is what the request has put on this connection, `m` the connection's mark. */
  ghost predicate EpochOk(l: Link, t: TaskId, m: Mark, mine: seq<Command>) {
    && LinkSane(l)
    && var done := Of(t, l.sent[..l.consumed]);
    && m.base <= |done| && m.base <= |Of(t, l.sent)| && Of(t, l.sent)[m.base..] == mine
    && m.heard <= |l.statuses|
    && TrackerOk(l.tracker, t, m.player, done[m.base..])
    && ReportsOk(l.tracker, l.statuses, t, m.heard, done[m.base..])
    && ReadOk(l, t, m.heard)
  }

  /** What the device has handled of the request's commands. */
  function Handled(l: Link, t: TaskId, m: Mark): seq<Command>
    requires l.consumed <= |l.sent| && m.base <= |Of(t, l.sent[..l.consumed])|
  {
    Of(t, l.sent[..l.consumed])[m.base..]
  }

  lemma HandledIsSent(l: Link, t: TaskId, m: Mark, mine: seq<Command>)
    requires EpochOk(l, t, m, mine)
    ensures Handled(l, t, m) <= mine
    ensures Handled(l, t, m) == mine ==> Of(t, l.sent[..l.consumed]) == Of(t, l.sent)
  {
    hide TrackerOk, ReportsOk, ReadOk, Of;
    OfPrefix(t, l.sent, l.consumed);
    var (done, all) := (Of(t, l.sent[..l.consumed]), Of(t, l.sent));
    assert done[m.base..] == all[m.base..|done|];
  }

  // ---- What a device does ----

  lemma OtherTurn(l: Link, o: Outcome, t: TaskId, m: Mark, mine: seq<Command>)
    requires EpochOk(l, t, m, mine) && l.alive && l.consumed < |l.sent| && l.sent[l.consumed].task != t
    requires IsGreeted(l)
    ensures EpochOk(LinkTurn(l, o), t, m, mine)
  {
    hide Of, ActiveOk, FinishedOk, Handle;
    var x := l.sent[l.consumed];
    var l' := LinkTurn(l, o);
    assert l.sent[..l.consumed + 1] == l.sent[..l.consumed] + [x];
    OfSnoc(t, l.sent[..l.consumed], x);
    HandleIsLocal(l.tracker, x, o, t);
    var pre := Handled(l, t, m);
    assert Of(t, l'.sent[..l'.consumed]) == Of(t, l.sent[..l.consumed]);
    ActiveIsLocal(l.tracker, l'.tracker, t, pre);
    forall i | m.heard <= i < |l'.statuses| ensures ReportOk(l'.tracker, l'.statuses, i, t, pre) {
      if i < |l.statuses| {
        assert ReportOk(l.tracker, l.statuses, i, t, pre);
        if l.statuses[i].task == t {
          FinishedIsLocal(l.tracker, l'.tracker, l.statuses[i], pre);
        }
      }
    }
  }

  lemma ActiveIsLocal(k: Tracker, k': Tracker, t: TaskId, pre: seq<Command>)
    requires (t in k'.active <==> t in k.active) && (t in k.active ==> k'.active[t] == k.active[t])
    requires PlayerAt(k', t) == PlayerAt(k, t)
    requires ActiveOk(k, t, pre)
    ensures ActiveOk(k', t, pre)
  {}

  lemma FinishedIsLocal(k: Tracker, k': Tracker, st: Status, pre: seq<Command>)
    requires PlayerAt(k', st.task) == PlayerAt(k, st.task)
    requires FinishedOk(k, st, pre)
    ensures FinishedOk(k', st, pre)
  {}

  /** Before the last command of the request no report of it is Finished. */
  lemma NoneFinished(k: Tracker, statuses: seq<Status>, i: nat, t: TaskId, pre: seq<Command>, mine: seq<Command>)
    requires i < |statuses| && statuses[i].task == t && ReportOk(k, statuses, i, t, pre)
    requires pre < mine && Shape(mine)
    ensures !statuses[i].state.Finished?
  {
    assert pre[|pre| - 1] == mine[|pre| - 1];
  }

  /** The reports after one more command of the request. */
  lemma OwnReports(k: Tracker, k': Tracker, statuses: seq<Status>, out: seq<Status>, t: TaskId, heard: nat,
                   pre: seq<Command>, x: Command, mine: seq<Command>)
    requires heard <= |statuses| && ReportsOk(k, statuses, t, heard, pre)
    requires pre + [x] <= mine && Shape(mine)
    requires |out| <= 1 && forall i :: 0 <= i < |out| ==> FinishedOk(k', out[i], pre + [x])
    ensures ReportsOk(k', statuses + out, t, heard, pre + [x])
  {
    hide FinishedOk, Shape;
    StartIsFirst(pre, x, mine);
    forall i | heard <= i < |statuses + out| ensures ReportOk(k', statuses + out, i, t, pre + [x]) {
      if i < |statuses| {
        assert ReportOk(k, statuses, i, t, pre);
        if statuses[i].task == t {
          NoneFinished(k, statuses, i, t, pre, mine);
          NotFinishedIsOk(k', statuses[i], pre + [x]);
        }
      }
    }
  }

  /** What the device has handled after one more command of the request. */
  lemma OwnHandled(l: Link, t: TaskId, m: Mark, mine: seq<Command>)
    requires EpochOk(l, t, m, mine) && l.consumed < |l.sent| && l.sent[l.consumed].task == t
    ensures var done := Of(t, l.sent[..l.consumed + 1]);
            var pre := Handled(l, t, m) + [l.sent[l.consumed]];
            m.base <= |done| && done[m.base..] == pre && pre <= mine
  {
    var (x, done) := (l.sent[l.consumed], Of(t, l.sent[..l.consumed]));
    assert l.sent[..l.consumed + 1] == l.sent[..l.consumed] + [x];
    OfSnoc(t, l.sent[..l.consumed], x);
    OfPrefix(t, l.sent, l.consumed + 1);
    hide Of, TrackerOk, ReportsOk, ReadOk;
    var all := Of(t, l.sent);
    assert (done + [x])[m.base..] == done[m.base..] + [x];
    assert all[..|done| + 1] == done + [x];
    assert (done + [x])[m.base..] == all[m.base..|done| + 1];
    assert all[m.base..][..|done| + 1 - m.base] == all[m.base..|done| + 1];
  }

  /** The device handles one more command of the request. */
  lemma OwnTurn(l: Link, o: Outcome, t: TaskId, m: Mark, mine: seq<Command>)
    requires EpochOk(l, t, m, mine) && Shape(mine)
    requires l.alive && l.consumed < |l.sent| && l.sent[l.consumed].task == t && IsGreeted(l)
    ensures EpochOk(LinkTurn(l, o), t, m, mine)
  {
    OwnHandled(l, t, m, mine);
    hide Of, ActiveOk, FinishedOk, Handle, Shape, ReportsOk;
    var (x, pre) := (l.sent[l.consumed], Handled(l, t, m));
    var (k', out) := Handle(l.tracker, x, o);
    HandleIsLocal(l.tracker, x, o, t);
    StartIsFirst(pre, x, mine);
    HandleKeepsTask(l.tracker, x, o, pre);
    OwnReports(l.tracker, k', l.statuses, out, t, m.heard, pre, x, mine);
  }

  lemma StartIsFirst(pre: seq<Command>, x: Command, mine: seq<Command>)
    requires pre + [x] <= mine && Shape(mine)
    ensures x.Start? ==> pre == []
    ensures pre < mine
  {
    assert mine[|pre|] == x;
  }

  lemma NotFinishedIsOk(k: Tracker, st: Status, pre: seq<Command>)
    requires !st.state.Finished?
    ensures FinishedOk(k, st, pre)
  {}

  /** A device that has not been greeted ignores the command. */
  lemma IgnoredTurn(l: Link, t: TaskId, m: Mark, mine: seq<Command>)
    requires EpochOk(l, t, m, mine) && l.consumed < |l.sent| && !IsGreeted(l)
    ensures EpochOk(l.(consumed := l.consumed + 1), t, m, mine)
  {
    var (x, done) := (l.sent[l.consumed], Of(t, l.sent[..l.consumed]));
    assert l.sent[..l.consumed + 1] == l.sent[..l.consumed] + [x];
    OfSnoc(t, l.sent[..l.consumed], x);
    hide Of, ReportOk, Opened, Heard;
    if x.task == t {
      assert (done + [x])[m.base..] == done[m.base..] + [x];
      var none: seq<Status> := [];
      assert l.statuses == none;
    }
  }

  lemma TurnKeepsEpoch(l: Link, o: Outcome, t: TaskId, m: Mark, mine: seq<Command>)
    requires EpochOk(l, t, m, mine) && Shape(mine)
    ensures EpochOk(LinkTurn(l, o), t, m, mine)
  {
    hide EpochOk, Shape, Handle;
    if l.alive && l.consumed < |l.sent| {
      if !IsGreeted(l) {
        IgnoredTurn(l, t, m, mine);
      } else if l.sent[l.consumed].task == t {
        OwnTurn(l, o, t, m, mine);
      } else {
        OtherTurn(l, o, t, m, mine);
      }
    }
  }

  lemma StopKeepsEpoch(l: Link, t: TaskId, m: Mark, mine: seq<Command>)
    requires EpochOk(l, t, m, mine)
    ensures EpochOk(LinkStop(l), t, m, mine)
  {
    if l.alive {
      hide Of;
      var l' := LinkStop(l);
      var pre := Handled(l, t, m);
      forall i | m.heard <= i < |l'.statuses| ensures ReportOk(l'.tracker, l'.statuses, i, t, pre) {
        assert ReportOk(l.tracker, l.statuses, i, t, pre);
        if l.statuses[i].task == t && l.statuses[i].state.Finished? {
          FinishedIsOver(l.tracker, l.statuses[i], pre);
        }
      }
    }
  }

  /** After its finish a task is no longer active. */
  lemma FinishedIsOver(k: Tracker, st: Status, pre: seq<Command>)
    requires FinishedOk(k, st, pre) && st.state.Finished? && ActiveOk(k, st.task, pre)
    ensures st.task !in k.active
  {}

  // ---- What the gateway does ----

  /** Another command is enqueued; the request's own are those for its id. */
  lemma EnqueueKeepsEpoch(l: Link, x: Command, t: TaskId, m: Mark, mine: seq<Command>)
    requires EpochOk(l, t, m, mine)
    ensures EpochOk(l.(sent := l.sent + [x]), t, m, mine + if x.task == t then [x] else [])
  {
    hide Of, TrackerOk, ReportOk;
    OfSnoc(t, l.sent, x);
    var l' := l.(sent := l.sent + [x]);
    assert l'.sent[..l'.consumed] == l.sent[..l.consumed];
    assert (Of(t, l.sent) + [x])[m.base..] == Of(t, l.sent)[m.base..] + [x];
    assert mine + [] == mine;
  }

  /** The gateway task moves on, keeping the status in hand or letting go of it. */
  lemma HandlerKeepsEpoch(l: Link, h: Handler, t: TaskId, m: Mark, mine: seq<Command>)
    requires EpochOk(l, t, m, mine) && LinkSane(l.(handler := h))
    requires Holds(h) ==> Holds(l.handler)
    ensures EpochOk(l.(handler := h), t, m, mine)
  {
    hide Of, TrackerOk, ReportOk;
  }

  lemma CloseKeepsEpoch(l: Link, t: TaskId, m: Mark, mine: seq<Command>)
    requires EpochOk(l, t, m, mine)
    ensures EpochOk(l.(open := false), t, m, mine)
  {
    hide Of, TrackerOk, ReportOk;
  }

  /** The gateway greets the agent. */
  lemma GreetKeepsEpoch(l: Link, t: TaskId, m: Mark, mine: seq<Command>)
    requires EpochOk(l, t, m, mine) && l.handler.Removing? && !l.handler.closing
    ensures EpochOk(l.(handler := Serving, greeted := Some(|l.sent|)), t, m, mine)
  {
    hide Of, TrackerOk, ReportOk;
  }

  lemma ReadKeepsEpoch(l: Link, t: TaskId, m: Mark, mine: seq<Command>)
    requires EpochOk(l, t, m, mine) && l.handler.Serving? && l.read < |l.statuses|
    ensures EpochOk(l.(read := l.read + 1, handler := Looking(l.statuses[l.read])), t, m, mine)
  {
    hide Of, TrackerOk, ReportOk;
  }

  // ---- Between two requests with one id ----

  /** Nothing of `t` is under way on this connection. */
  ghost predicate Quiet(l: Link, t: TaskId)
    requires LinkSane(l)
  {
    && Of(t, l.sent[..l.consumed]) == Of(t, l.sent)
    && t !in l.tracker.active
    && (forall i :: l.read <= i < |l.statuses| ==> l.statuses[i].task != t)
    && !(Holds(l.handler) && l.handler.status.task == t)
  }

  lemma QuietStartsEpoch(l: Link, t: TaskId)
    requires LinkSane(l) && Quiet(l, t)
    ensures EpochOk(l, t, MarkOf(l, t), [])
  {
    hide Of;
    var done := Of(t, l.sent);
    assert done[|done|..] == [];
  }

  /** A connection that got nothing from the request has nothing of its id under way. */
  lemma UnusedIsQuiet(l: Link, t: TaskId, m: Mark)
    requires EpochOk(l, t, m, [])
    ensures Quiet(l, t) && PlayerAt(l.tracker, t) == m.player
  {
    HandledIsSent(l, t, m, []);
    hide Of, ActiveOk, FinishedOk;
    var pre := Handled(l, t, m);
    forall i | m.heard <= i < |l.statuses| ensures l.statuses[i].task != t {
      assert ReportOk(l.tracker, l.statuses, i, t, pre);
    }
  }

  /** The gateway has dealt with a Finished status of `t` sent since the mark. */
  ghost predicate HeardFinish(l: Link, t: TaskId, heard: nat, chunkCount: nat, byteCount: nat) {
    exists i :: heard <= i < l.read && i < |l.statuses| && DealtWith(l, t, i, chunkCount, byteCount)
  }

  ghost predicate DealtWith(l: Link, t: TaskId, i: nat, chunkCount: nat, byteCount: nat)
    requires i < |l.statuses|
  {
    l.statuses[i] == Status(t, Finished(chunkCount, byteCount)) && (Holds(l.handler) ==> i < l.read - 1)
  }

  /** The Finished status says that the whole of the request was handled here, and how. */
  lemma FinishedIsQuiet(l: Link, t: TaskId, m: Mark, mine: seq<Command>, chunkCount: nat, byteCount: nat)
    returns (i: nat)
    requires EpochOk(l, t, m, mine) && Shape(mine) && HeardFinish(l, t, m.heard, chunkCount, byteCount)
    ensures Quiet(l, t) && Handled(l, t, m) == mine
    ensures m.heard <= i < |l.statuses| && l.statuses[i] == Status(t, Finished(chunkCount, byteCount))
    ensures FinishedOk(l.tracker, l.statuses[i], mine)
  {
    HandledIsSent(l, t, m, mine);
    hide Of, ActiveOk, FinishedOk, Shape;
    var pre := Handled(l, t, m);
    i :| m.heard <= i < l.read && i < |l.statuses| && DealtWith(l, t, i, chunkCount, byteCount);
    assert ReportOk(l.tracker, l.statuses, i, t, pre);
    if pre < mine {
      NoneFinished(l.tracker, l.statuses, i, t, pre, mine);
      assert false;
    }
    FinishedIsOver(l.tracker, l.statuses[i], pre);
  }
}
