/**
 The pump between a bridge's recognition events and a client: numbered results that
 carry the whole text and its difference from the previous one.
 */
module AsrPump {
  import opened Common

  /** A stretch of the transcript, with times where the provider gives them. */
  datatype Segment = Segment(text: string, startMs: Option<nat>, endMs: Option<nat>, isFinal: bool)

  datatype BridgeEvent =
    | Partial(text: string)
    | Final(text: string, segments: seq<Segment>)
    | Ended(reason: Option<string>)
    | Error(message: string)

  datatype Message =
    | AsrResult(sequence: nat, revision: nat, text: string, delta: Option<string>, isFinal: bool,
                beginMs: Option<nat>, endMs: Option<nat>, words: seq<Segment>)
    | SessionEnded(reason: Option<string>)
    | ProviderError(message: string)

  function ComputeDelta(previous: string, current: string): Option<string> {
    if current == previous then None
    else if previous == "" then Some(current)
    else if previous <= current then Some(current[|previous|..])
    else Some(current)
  }

  predicate IsResult(e: BridgeEvent) { e.Partial? || e.Final? }

  function BeginOf(segments: seq<Segment>): Option<nat> {
    if segments == [] then None else segments[0].startMs
  }

  function EndOf(segments: seq<Segment>): Option<nat> {
    if segments == [] then None else segments[|segments| - 1].endMs
  }

  /** The message for one event, given the counters and the text before it. */
  function Outgoing(e: BridgeEvent, sequence: nat, revision: nat, previous: string): Message {
    match e
    case Ended(reason) => SessionEnded(reason)
    case Error(message) => ProviderError(message)
    case Partial(text) =>
      AsrResult(sequence + 1, revision + 1, text, ComputeDelta(previous, text), false, None, None, [])
    case Final(text, segments) =>
      AsrResult(sequence + 1, revision + 1, text, ComputeDelta(previous, text), true,
                BeginOf(segments), EndOf(segments), segments)
  }

  /** Everything the pump sends for the events, given its two counters and the last text. */
  function Pump(events: seq<BridgeEvent>, sequence: nat, revision: nat, previous: string): seq<Message> {
    if events == [] then []
    else
      var e := events[0];
      [Outgoing(e, sequence, revision, previous)] +
      if IsResult(e) then Pump(events[1..], sequence + 1, revision + 1, e.text)
      else Pump(events[1..], sequence + 1, revision, previous)
  }

  lemma PumpFrom(events: seq<BridgeEvent>, i: nat, sequence: nat, revision: nat, previous: string)
    requires i < |events|
    ensures Pump(events[i..], sequence, revision, previous) ==
            [Outgoing(events[i], sequence, revision, previous)] +
            if IsResult(events[i]) then Pump(events[i + 1..], sequence + 1, revision + 1, events[i].text)
            else Pump(events[i + 1..], sequence + 1, revision, previous)
  {
    assert events[i..][1..] == events[i + 1..];
  }

  /** The pump's loop; the client's channel takes `room` messages and then fails. */
  method PumpEvents(events: seq<BridgeEvent>, room: nat) returns (out: seq<Message>)
    ensures out == Taken(Pump(events, 0, 0, ""), room)
  {
    out := [];
    var sequence: nat, revision: nat, previousText := 0, 0, "";
    var i := 0;
    ghost var all := Pump(events, 0, 0, "");
    assert events[0..] == events;
    while i < |events|
      invariant 0 <= i <= |events| && |out| <= room
      invariant all == out + Pump(events[i..], sequence, revision, previousText)
    {
      PumpFrom(events, i, sequence, revision, previousText);
      hide ComputeDelta, Pump;
      ghost var next := Outgoing(events[i], sequence, revision, previousText);
      sequence := sequence + 1;
      var outgoing;
      match events[i] {
        case Ended(reason) =>
          outgoing := SessionEnded(reason);
        case Error(message) =>
          outgoing := ProviderError(message);
        case Partial(text) =>
          revision := revision + 1;
          outgoing := AsrResult(sequence, revision, text, ComputeDelta(previousText, text), false, None, None, []);
          previousText := text;
        case Final(text, segments) =>
          revision := revision + 1;
          outgoing := AsrResult(sequence, revision, text, ComputeDelta(previousText, text), true, BeginOf(segments),
                                EndOf(segments), segments);
          previousText := text;
      }
      assert outgoing == next;
      hide Outgoing;
      TakenStep(all, out, outgoing, Pump(events[i + 1..], sequence, revision, previousText), room);
      if |out| == room {
        return;
      }
      out := out + [outgoing];
      i := i + 1;
    }
  }

  /** The events that carry a text. */
  function ResultEvents(events: seq<BridgeEvent>): seq<BridgeEvent> {
    if events == [] then []
    else if IsResult(events[0]) then [events[0]] + ResultEvents(events[1..])
    else ResultEvents(events[1..])
  }

  function Results(out: seq<Message>): (rs: seq<Message>)
    ensures forall i :: 0 <= i < |rs| ==> rs[i].AsrResult?
  {
    if out == [] then []
    else if out[0].AsrResult? then [out[0]] + Results(out[1..])
    else Results(out[1..])
  }

  /** The text after `k` results. */
  function TextAfter(rs: seq<Message>, previous: string, k: nat): string
    requires k <= |rs| && (k > 0 ==> rs[k - 1].AsrResult?)
  {
    if k == 0 then previous else rs[k - 1].text
  }

  /** `r` is the result for event `e`, with this revision and the text before it. */
  ghost predicate ResultOf(r: Message, e: BridgeEvent, revision: nat, previous: string) {
    && r.AsrResult? && IsResult(e)
    && r.revision == revision && r.text == e.text && r.isFinal == e.Final? && r.delta == ComputeDelta(previous, e.text)
    && r.words == (if e.Final? then e.segments else [])
    && r.beginMs == BeginOf(r.words) && r.endMs == EndOf(r.words)
  }

  ghost predicate Numbered(rs: seq<Message>, es: seq<BridgeEvent>, revision: nat, previous: string) {
    && |rs| == |es|
    && (forall i :: 0 <= i < |rs| ==> rs[i].AsrResult?)
    && (forall i :: 0 <= i < |rs| ==> ResultAt(rs, es, revision, previous, i))
  }

  ghost predicate ResultAt(rs: seq<Message>, es: seq<BridgeEvent>, revision: nat, previous: string, i: nat)
    requires i < |rs| == |es| && (i > 0 ==> rs[i - 1].AsrResult?)
  {
    ResultOf(rs[i], es[i], revision + i + 1, TextAfter(rs, previous, i))
  }

  lemma NumberedStep(r: Message, e: BridgeEvent, rs: seq<Message>, es: seq<BridgeEvent>, revision: nat,
                     previous: string)
    requires ResultOf(r, e, revision + 1, previous) && Numbered(rs, es, revision + 1, e.text)
    ensures Numbered([r] + rs, [e] + es, revision, previous)
  {
    assert r.AsrResult? && r.text == e.text;
    hide ResultOf;
    var (out, all) := ([r] + rs, [e] + es);
    forall i | 0 <= i < |out|
      ensures ResultAt(out, all, revision, previous, i)
    {
      if i > 0 {
        assert ResultAt(rs, es, revision + 1, e.text, i - 1);
        assert out[i] == rs[i - 1] && all[i] == es[i - 1];
        assert TextAfter(out, previous, i) == TextAfter(rs, e.text, i - 1);
      }
    }
  }

  /**
   Every event that carries a text becomes one result, in order: numbered on from
   `revision`, final exactly for a final transcript, with the delta from the text before
   and the words of the transcript, whose first start and last end are its times.
   */
  lemma {:induction false} ResultsAreNumbered(events: seq<BridgeEvent>, sequence: nat, revision: nat, previous: string)
    ensures Numbered(Results(Pump(events, sequence, revision, previous)), ResultEvents(events), revision, previous)
  {
    if events != [] {
      hide Numbered, ComputeDelta;
      var e := events[0];
      if IsResult(e) {
        ResultsAreNumbered(events[1..], sequence + 1, revision + 1, e.text);
        var r := Outgoing(e, sequence, revision, previous);
        var rest := Pump(events[1..], sequence + 1, revision + 1, e.text);
        NumberedStep(r, e, Results(rest), ResultEvents(events[1..]), revision, previous);
        assert Pump(events, sequence, revision, previous) == [r] + rest;
        assert ([r] + rest)[1..] == rest;
      } else {
        ResultsAreNumbered(events[1..], sequence + 1, revision, previous);
        var rest := Pump(events[1..], sequence + 1, revision, previous);
        assert Pump(events, sequence, revision, previous)[1..] == rest;
      }
    }
  }

  /** Every event is sent as one message, and a result's sequence number is its place among all of them. */
  lemma {:induction false} SequenceCountsEvents(events: seq<BridgeEvent>, sequence: nat, revision: nat,
                                                previous: string)
    ensures var out := Pump(events, sequence, revision, previous);
            && |out| == |events|
            && forall i :: 0 <= i < |out| ==>
                 (out[i].AsrResult? <==> IsResult(events[i]))
                     && (out[i].AsrResult? ==> out[i].sequence == sequence + i + 1)
  {
    hide ComputeDelta;
    if events != [] {
      var e := events[0];
      SequenceCountsEvents(events[1..], sequence + 1, if IsResult(e) then revision + 1 else revision,
                           if IsResult(e) then e.text else previous);
    }
  }

  function DeltaText(delta: Option<string>): string { if delta.Some? then delta.value else "" }

  /**
   A delta is absent exactly when the text is unchanged; appending it to the previous
   text gives the text exactly when the text extends it.
   */
  lemma DeltaLaw(previous: string, text: string)
    ensures var d := ComputeDelta(previous, text);
            && (d.None? <==> text == previous)
            && (d.Some? ==> text == previous + d.value || text == d.value)
            && (previous + DeltaText(d) == text <==> previous <= text)
  {
    if !(previous <= text) {
      assert previous <= previous + text;
    }
  }

  /** The concatenation of the first `k` deltas. */
  function Joined(rs: seq<Message>, k: nat): string
    requires k <= |rs| && forall i :: 0 <= i < |rs| ==> rs[i].AsrResult?
  {
    if k == 0 then "" else Joined(rs, k - 1) + DeltaText(rs[k - 1].delta)
  }

  /** Each text extends the one before. */
  ghost predicate Extending(rs: seq<Message>)
    requires forall i :: 0 <= i < |rs| ==> rs[i].AsrResult?
  {
    forall i :: 0 <= i < |rs| ==> TextAfter(rs, "", i) <= rs[i].text
  }

  /**
   For every event stream: a client that joins the deltas has the current text after
   every result if and only if each text extends the one before; in particular the
   deltas then concatenate to the final text.
   */
  lemma JoinedDeltasExactly(events: seq<BridgeEvent>)
    ensures var rs := Results(Pump(events, 0, 0, ""));
            (forall k :: 0 <= k <= |rs| ==> Joined(rs, k) == TextAfter(rs, "", k)) <==> Extending(rs)
  {
    var rs := Results(Pump(events, 0, 0, ""));
    ResultsAreNumbered(events, 0, 0, "");
    hide Pump, Results, ComputeDelta;
    if Extending(rs) {
      forall k | 0 <= k <= |rs|
        ensures Joined(rs, k) == TextAfter(rs, "", k)
      {
        JoinedWhileExtending(rs, ResultEvents(events), k);
      }
    } else if forall k :: 0 <= k <= |rs| ==> Joined(rs, k) == TextAfter(rs, "", k) {
      forall i | 0 <= i < |rs|
        ensures TextAfter(rs, "", i) <= rs[i].text
      {
        assert ResultAt(rs, ResultEvents(events), 0, "", i);
        assert Joined(rs, i + 1) == TextAfter(rs, "", i + 1);
        assert Joined(rs, i) == TextAfter(rs, "", i);
        DeltaLaw(TextAfter(rs, "", i), rs[i].text);
      }
    }
  }

  lemma {:induction false} JoinedWhileExtending(rs: seq<Message>, es: seq<BridgeEvent>, k: nat)
    requires Numbered(rs, es, 0, "") && Extending(rs) && k <= |rs|
    ensures Joined(rs, k) == TextAfter(rs, "", k)
  {
    hide ComputeDelta;
    if k > 0 {
      assert ResultAt(rs, es, 0, "", k - 1);
      JoinedWhileExtending(rs, es, k - 1);
      DeltaLaw(TextAfter(rs, "", k - 1), rs[k - 1].text);
    }
  }
}
