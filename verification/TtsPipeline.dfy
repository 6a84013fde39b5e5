/**
 Synthesised audio on its way to the client: the bridge splits it into chunks,
 the server pumps them out as base64 deltas, the client collects them again.
 */
module TtsPipeline {
  import opened Common
  import Base64

  type Format = string

  datatype AudioChunk = AudioChunk(bytes: seq<byte>, sequence: nat, isFinal: bool, format: Option<Format>)

  datatype BridgeEvent = Audio(chunk: AudioChunk) | Ended(reason: Option<string>) | Error(message: string)

  datatype ServerMessage =
    | AudioDelta(sequence: nat, chunkId: nat, audio64: string, format: Option<Format>, isFinal: bool)
    | AudioDone(sequence: nat, totalChunks: nat, totalBytes: nat)
    | SessionEnded(reason: Option<string>)
    | ProviderError(message: string)

  // ---- Splitting ----

  function ChunkEvents(audio: seq<byte>, format: Option<Format>, size: nat): (events: seq<BridgeEvent>)
    requires size >= 1
    ensures |events| == |Chunks(audio, size)|
  {
    var parts := Chunks(audio, size);
    seq(|parts|, i requires 0 <= i < |parts| =>
      Audio(AudioChunk(parts[i], i + 1, i + 1 == |parts|, if i == 0 then format else None)))
  }

  /** The channel takes `room` events before its receiver is gone. */
  method EmitAudioChunks(audio: seq<byte>, format: Option<Format>, size: nat, room: nat)
    returns (sent: seq<BridgeEvent>, ok: bool)
    requires size >= 1
    ensures audio == [] ==> sent == [] && !ok
    ensures audio != [] ==>
              sent == Taken(ChunkEvents(audio, format, size), room) && (ok <==> CeilDiv(|audio|, size) <= room)
  {
    sent, ok := [], false;
    if audio == [] {
      return;
    }
    ChunksRoundTrip(audio, size);
    var parts := Chunks(audio, size);
    var total := if CeilDiv(|audio|, size) >= 1 then CeilDiv(|audio|, size) else 1;
    ghost var events := ChunkEvents(audio, format, size);
    for index := 0 to |parts|
      invariant index <= room && sent == events[..index]
    {
      if |sent| == room {
        return;
      }
      sent := sent + [Audio(AudioChunk(parts[index], index + 1, index + 1 == total,
                                       if index == 0 then format else None))];
      assert events[..index + 1] == events[..index] + [events[index]];
    }
    ok := true;
  }

  // ---- Pumping ----

  /** Everything the pump sends for the remaining events, given its three counters. */
  function Pump(events: seq<BridgeEvent>, sequence: nat, chunks: nat, bytes: nat): seq<ServerMessage> {
    if events == [] then []
    else
      match events[0]
      case Audio(c) =>
        [AudioDelta(sequence + 1, chunks + 1, Base64.Encode(c.bytes), c.format, c.isFinal)]
        + Pump(events[1..], sequence + 1, chunks + 1, bytes + |c.bytes|)
      case Ended(reason) => [AudioDone(sequence + 1, chunks, bytes), SessionEnded(reason)]
      case Error(message) => [ProviderError(message)] + Pump(events[1..], sequence, chunks, bytes)
  }

  /** The pump's loop; the client's channel takes `room` messages. */
  method PumpEvents(events: seq<BridgeEvent>, room: nat) returns (out: seq<ServerMessage>)
    ensures out == Taken(Pump(events, 0, 0, 0), room)
  {
    out := [];
    var sequence: nat, totalChunks: nat, totalBytes: nat := 0, 0, 0;
    var i := 0;
    ghost var all := Pump(events, 0, 0, 0);
    assert events[0..] == events;
    while i < |events|
      invariant 0 <= i <= |events| && |out| <= room
      invariant all == out + Pump(events[i..], sequence, totalChunks, totalBytes)
    {
      hide Base64.Encode;
      PumpStep(events[i..], sequence, totalChunks, totalBytes);
      assert events[i..][1..] == events[i + 1..];
      hide Pump, EventBytes;
      match events[i] {
        case Audio(chunk) =>
          sequence := sequence + 1;
          totalChunks := totalChunks + 1;
          totalBytes := totalBytes + |chunk.bytes|;
          var delta := AudioDelta(sequence, totalChunks, Base64.Encode(chunk.bytes), chunk.format, chunk.isFinal);
          TakenStep(all, out, delta, Pump(events[i + 1..], sequence, totalChunks, totalBytes), room);
          if |out| == room {
            return;
          }
          out := out + [delta];
        case Ended(reason) =>
          sequence := sequence + 1;
          var done := AudioDone(sequence, totalChunks, totalBytes);
          assert [done, SessionEnded(reason)] == [done] + [SessionEnded(reason)];
          TakenStep(all, out, done, [SessionEnded(reason)], room);
          if |out| == room {
            return;
          }
          out := out + [done];
          if |out| < room {
            out := out + [SessionEnded(reason)];
          }
          return;
        case Error(message) =>
          TakenStep(all, out, ProviderError(message), Pump(events[i + 1..], sequence, totalChunks, totalBytes), room);
          if |out| == room {
            return;
          }
          out := out + [ProviderError(message)];
      }
      i := i + 1;
    }
  }

  function DeltaCount(out: seq<ServerMessage>): nat {
    if out == [] then 0 else (if out[0].AudioDelta? then 1 else 0) + DeltaCount(out[1..])
  }

  /** The bytes the client gets out of the deltas (a delta that is not base64 gives nothing). */
  function DeltaBytes(out: seq<ServerMessage>): seq<byte> {
    if out == [] then []
    else
      (if out[0].AudioDelta? && Base64.Decode(out[0].audio64).Some? then Base64.Decode(out[0].audio64).value else [])
      + DeltaBytes(out[1..])
  }

  /** The audio of a stream of events, up to its end. */
  function EventBytes(events: seq<BridgeEvent>): seq<byte> {
    if events == [] || events[0].Ended? then []
    else (if events[0].Audio? then events[0].chunk.bytes else []) + EventBytes(events[1..])
  }

  /**
   An audio.done states these totals and is followed by session.ended, which follows
   nothing else and ends the stream.
   */
  ghost predicate EndsWith(out: seq<ServerMessage>, chunks: nat, bytes: nat) {
    && (forall i :: 0 <= i < |out| && out[i].AudioDone? ==>
          out[i].totalChunks == chunks && out[i].totalBytes == bytes && i == |out| - 2)
    && (forall i :: 0 <= i < |out| && out[i].SessionEnded? ==> i == |out| - 1 && i > 0 && out[i - 1].AudioDone?)
  }

  /** What the messages `out`, sent from these counters on, must look like. */
  ghost predicate Tallied(out: seq<ServerMessage>, chunks: nat, bytes: nat) {
    EndsWith(out, chunks + DeltaCount(out), bytes + |DeltaBytes(out)|)
  }

  lemma EndsWithMore(m: ServerMessage, rest: seq<ServerMessage>, chunks: nat, bytes: nat)
    requires EndsWith(rest, chunks, bytes) && !m.AudioDone? && !m.SessionEnded?
    ensures EndsWith([m] + rest, chunks, bytes)
  {
    var out := [m] + rest;
    forall i | 0 <= i < |out| && out[i].AudioDone?
      ensures out[i].totalChunks == chunks && out[i].totalBytes == bytes && i == |out| - 2
    {
      assert out[i] == rest[i - 1];
    }
    forall i | 0 <= i < |out| && out[i].SessionEnded?
      ensures i == |out| - 1 && i > 0 && out[i - 1].AudioDone?
    {
      assert out[i] == rest[i - 1];
      assert out[i - 1] == rest[i - 2];
    }
  }

  lemma TallyDelta(m: ServerMessage, rest: seq<ServerMessage>, chunks: nat, bytes: nat)
    requires m.AudioDelta? && Base64.Decode(m.audio64).Some?
    requires Tallied(rest, chunks + 1, bytes + |Base64.Decode(m.audio64).value|)
    ensures Tallied([m] + rest, chunks, bytes)
    ensures DeltaBytes([m] + rest) == Base64.Decode(m.audio64).value + DeltaBytes(rest)
  {
    hide Base64.Decode, EndsWith;
    assert ([m] + rest)[1..] == rest;
    EndsWithMore(m, rest, chunks + DeltaCount([m] + rest), bytes + |DeltaBytes([m] + rest)|);
  }

  lemma TallyOther(m: ServerMessage, rest: seq<ServerMessage>, chunks: nat, bytes: nat)
    requires m.ProviderError? && Tallied(rest, chunks, bytes)
    ensures Tallied([m] + rest, chunks, bytes) && DeltaBytes([m] + rest) == DeltaBytes(rest)
  {
    hide Base64.Decode, EndsWith;
    assert ([m] + rest)[1..] == rest;
    assert [] + DeltaBytes(rest) == DeltaBytes(rest);
    EndsWithMore(m, rest, chunks + DeltaCount(rest), bytes + |DeltaBytes(rest)|);
  }

  /**
   Any event stream: the deltas carry exactly its audio; audio.done, if any, states
   how many chunks and bytes were sent and is followed by session.ended and nothing else.
   */
  lemma {:induction false} PumpIsExact(events: seq<BridgeEvent>, sequence: nat, chunks: nat, bytes: nat)
    ensures DeltaBytes(Pump(events, sequence, chunks, bytes)) == EventBytes(events)
    ensures Tallied(Pump(events, sequence, chunks, bytes), chunks, bytes)
  {
    hide *;
    if events == [] {
      NothingTallied(events, sequence, chunks, bytes);
    } else if events[0].Audio? {
      PumpStep(events, sequence, chunks, bytes);
      PumpIsExact(events[1..], sequence + 1, chunks + 1, bytes + |events[0].chunk.bytes|);
      ExactAudio(events[0].chunk, Pump(events[1..], sequence + 1, chunks + 1, bytes + |events[0].chunk.bytes|),
                 sequence, chunks, bytes);
    } else if events[0].Ended? {
      PumpStep(events, sequence, chunks, bytes);
      TallyEnd(sequence, chunks, bytes, events[0].reason);
    } else {
      PumpStep(events, sequence, chunks, bytes);
      PumpIsExact(events[1..], sequence, chunks, bytes);
      var message := events[0].message;
      TallyOther(ProviderError(message), Pump(events[1..], sequence, chunks, bytes), chunks, bytes);
    }
  }

  lemma NothingTallied(events: seq<BridgeEvent>, sequence: nat, chunks: nat, bytes: nat)
    requires events == []
    ensures DeltaBytes(Pump(events, sequence, chunks, bytes)) == EventBytes(events)
    ensures Tallied(Pump(events, sequence, chunks, bytes), chunks, bytes)
  {}

  lemma ExactAudio(c: AudioChunk, rest: seq<ServerMessage>, sequence: nat, chunks: nat, bytes: nat)
    requires Tallied(rest, chunks + 1, bytes + |c.bytes|)
    ensures var m := AudioDelta(sequence + 1, chunks + 1, Base64.Encode(c.bytes), c.format, c.isFinal);
            Tallied([m] + rest, chunks, bytes) && DeltaBytes([m] + rest) == c.bytes + DeltaBytes(rest)
  {
    hide Base64.Encode, Base64.Decode, Tallied, DeltaBytes, DeltaCount;
    Base64.RoundTrip(c.bytes);
    TallyDelta(AudioDelta(sequence + 1, chunks + 1, Base64.Encode(c.bytes), c.format, c.isFinal), rest, chunks, bytes);
  }

  /** One event of the pump and of the audio it carries. */
  lemma PumpStep(events: seq<BridgeEvent>, sequence: nat, chunks: nat, bytes: nat)
    requires events != []
    ensures var out := Pump(events, sequence, chunks, bytes);
            match events[0]
            case Audio(c) =>
              && out == [AudioDelta(sequence + 1, chunks + 1, Base64.Encode(c.bytes), c.format, c.isFinal)]
                        + Pump(events[1..], sequence + 1, chunks + 1, bytes + |c.bytes|)
              && EventBytes(events) == c.bytes + EventBytes(events[1..])
            case Ended(reason) =>
              out == [AudioDone(sequence + 1, chunks, bytes), SessionEnded(reason)] && EventBytes(events) == []
            case Error(message) =>
              && out == [ProviderError(message)] + Pump(events[1..], sequence, chunks, bytes)
              && EventBytes(events) == EventBytes(events[1..])
  {
    hide Base64.Encode;
    assert [] + EventBytes(events[1..]) == EventBytes(events[1..]);
  }

  lemma TallyEnd(sequence: nat, chunks: nat, bytes: nat, reason: Option<string>)
    ensures var out := [AudioDone(sequence + 1, chunks, bytes), SessionEnded(reason)];
            Tallied(out, chunks, bytes) && DeltaBytes(out) == []
  {
    var out := [AudioDone(sequence + 1, chunks, bytes), SessionEnded(reason)];
    assert out[1..] == [SessionEnded(reason)];
    assert out[1..][1..] == [];
    var none: seq<ServerMessage> := [];
    assert DeltaBytes(none) == [] && DeltaCount(none) == 0;
    assert DeltaBytes([SessionEnded(reason)]) == [] + DeltaBytes(out[1..][1..]) == [];
    assert DeltaCount([SessionEnded(reason)]) == 0 + DeltaCount(out[1..][1..]);
    assert DeltaBytes(out) == [] + DeltaBytes(out[1..]) == [];
  }

  // ---- Collecting ----

  datatype Collected = Collected(data: seq<byte>, format: Option<Format>)

  /** One delta; None when its audio is not base64, as the collector then throws. */
  function Collect(c: Collected, audio64: string, format: Option<Format>): Option<Collected> {
    var decoded := Base64.Decode(audio64);
    if decoded.None? then None
    else Some(Collected(c.data + decoded.value, if c.format.None? then format else c.format))
  }

  class Collector {
    var format: Option<Format>
    var data: seq<byte>

    constructor ()
      ensures data == [] && format == None
    {
      data, format := [], None;
    }

    /** The format is remembered even when the audio then turns out not to decode. */
    method Append(audio64: string, payloadFormat: Option<Format>) returns (ok: bool)
      modifies this
      ensures ok <==> Base64.Decode(audio64).Some?
      ensures ok ==> Some(Collected(data, format)) == Collect(old(Collected(data, format)), audio64, payloadFormat)
      ensures !ok ==> data == old(data)
      ensures format == if old(format).None? then payloadFormat else old(format)
    {
      if format.None? {
        format := payloadFormat;
      }
      var decoded := Base64.Decode(audio64);
      ok := decoded.Some?;
      if ok {
        data := data + decoded.value;
      }
    }
  }

  /** The collector fed with every delta of a message stream, in order. */
  function CollectAll(c: Collected, out: seq<ServerMessage>): Option<Collected>
    decreases |out|
  {
    if out == [] then Some(c)
    else if !out[0].AudioDelta? then CollectAll(c, out[1..])
    else
      var next := Collect(c, out[0].audio64, out[0].format);
      if next.None? then None else CollectAll(next.value, out[1..])
  }

  // ---- The whole pipeline ----

  /** The delta of the `k`-th part. */
  function DeltaOf(parts: seq<seq<byte>>, format: Option<Format>, k: nat): ServerMessage
    requires k < |parts|
  {
    AudioDelta(k + 1, k + 1, Base64.Encode(parts[k]), if k == 0 then format else None, k + 1 == |parts|)
  }

  /** What comes out of pumping chunk events `i..` of a split, then the end. */
  ghost predicate PumpedFrom(out: seq<ServerMessage>, parts: seq<seq<byte>>, format: Option<Format>, i: nat,
                             reason: Option<string>)
    requires i <= |parts|
  {
    && |out| == |parts| - i + 2
    && (forall k :: 0 <= k < |parts| - i ==> out[k] == DeltaOf(parts, format, i + k))
    && out[|out| - 2] == AudioDone(|parts| + 1, |parts|, |Concat(parts)|)
    && out[|out| - 1] == SessionEnded(reason)
  }

  lemma {:induction false} PumpOfChunks(audio: seq<byte>, format: Option<Format>, size: nat, reason: Option<string>,
                                        i: nat)
    requires size >= 1 && i <= |Chunks(audio, size)|
    ensures var parts := Chunks(audio, size);
            PumpedFrom(Pump((ChunkEvents(audio, format, size) + [Ended(reason)])[i..], i, i, |Concat(parts[..i])|),
                       parts, format, i, reason)
    decreases |Chunks(audio, size)| - i
  {
    hide Base64.Encode, Chunks, ChunkEvents;
    var parts := Chunks(audio, size);
    var events := ChunkEvents(audio, format, size) + [Ended(reason)];
    if i == |parts| {
      assert events[i..] == [Ended(reason)];
      assert parts[..i] == parts;
    } else {
      hide Concat, Pump;
      PumpOfChunks(audio, format, size, reason, i + 1);
      var rest := Pump(events[i + 1..], i + 1, i + 1, |Concat(parts[..i + 1])|);
      ChunkEventsAt(audio, format, size, i);
      assert events[i] == ChunkEvents(audio, format, size)[i];
      assert events[i..][1..] == events[i + 1..] && events[i..][0] == events[i];
      assert parts[..i + 1] == parts[..i] + [parts[i]];
      ConcatSnoc(parts[..i], parts[i]);
      PumpStep(events[i..], i, i, |Concat(parts[..i])|);
      PumpedStep(rest, parts, format, i, reason);
    }
  }

  lemma ChunkEventsAt(audio: seq<byte>, format: Option<Format>, size: nat, i: nat)
    requires size >= 1 && i < |Chunks(audio, size)|
    ensures var parts := Chunks(audio, size);
            ChunkEvents(audio, format, size)[i] ==
            Audio(AudioChunk(parts[i], i + 1, i + 1 == |parts|, if i == 0 then format else None))
  {}

  lemma PumpedStep(rest: seq<ServerMessage>, parts: seq<seq<byte>>, format: Option<Format>, i: nat,
                   reason: Option<string>)
    requires i < |parts| && PumpedFrom(rest, parts, format, i + 1, reason)
    ensures PumpedFrom([DeltaOf(parts, format, i)] + rest, parts, format, i, reason)
  {
    hide Base64.Encode, Concat;
    var out := [DeltaOf(parts, format, i)] + rest;
    assert forall k :: 1 <= k < |parts| - i ==> out[k] == rest[k - 1] == DeltaOf(parts, format, i + 1 + (k - 1));
  }

  lemma {:induction false} CollectPumped(out: seq<ServerMessage>, parts: seq<seq<byte>>, format: Option<Format>, i: nat,
                                         reason: Option<string>, c: Collected)
    requires i <= |parts| && PumpedFrom(out, parts, format, i, reason)
    requires c.data == Concat(parts[..i]) && c.format == (if i == 0 then None else format)
    ensures CollectAll(c, out) == Some(Collected(Concat(parts), if parts == [] then None else format))
    decreases |parts| - i
  {
    hide Base64.Encode, Base64.Decode, Concat, PumpedFrom;
    PumpedEnds(out, parts, format, i, reason);
    if i == |parts| {
      assert parts[..i] == parts;
      assert CollectAll(c, out[1..][1..]) == Some(c);
    } else {
      Base64.RoundTrip(parts[i]);
      assert parts[..i + 1] == parts[..i] + [parts[i]];
      ConcatSnoc(parts[..i], parts[i]);
      CollectPumped(out[1..], parts, format, i + 1, reason, Collect(c, out[0].audio64, out[0].format).value);
    }
  }

  lemma PumpedEnds(out: seq<ServerMessage>, parts: seq<seq<byte>>, format: Option<Format>, i: nat,
                   reason: Option<string>)
    requires i <= |parts| && PumpedFrom(out, parts, format, i, reason)
    ensures |out| == |parts| - i + 2
    ensures i < |parts| ==> out[0] == DeltaOf(parts, format, i) && PumpedFrom(out[1..], parts, format, i + 1, reason)
    ensures i == |parts| ==> !out[0].AudioDelta? && !out[1].AudioDelta?
  {
    hide Base64.Encode, Concat;
    if i < |parts| {
      assert out[0] == DeltaOf(parts, format, i + 0);
      assert forall k :: 0 <= k < |parts| - (i + 1) ==>
          out[1..][k] == out[k + 1] == DeltaOf(parts, format, i + (k + 1));
    }
  }

  /**
   Splitting, pumping and collecting returns the audio and its format; the deltas
   are numbered 1 to the ceiling of length over chunk size, exactly the last is
   final, and audio.done states their number and total size.
   */
  lemma PipelineRoundTrip(audio: seq<byte>, format: Option<Format>, size: nat, reason: Option<string>)
    requires audio != [] && size >= 1
    ensures var out := Pump(ChunkEvents(audio, format, size) + [Ended(reason)], 0, 0, 0);
            var n := CeilDiv(|audio|, size);
            && |out| == n + 2
            && (forall k :: 0 <= k < n ==>
                  out[k].AudioDelta? && out[k].sequence == k + 1 && out[k].chunkId == k + 1
                      && (out[k].isFinal <==> k == n - 1))
            && out[n] == AudioDone(n + 1, n, |audio|) && out[n + 1] == SessionEnded(reason)
            && CollectAll(Collected([], None), out) == Some(Collected(audio, format))
  {
    hide Base64.Encode, Pump, ChunkEvents, Chunks;
    ChunksRoundTrip(audio, size);
    var parts := Chunks(audio, size);
    var events := ChunkEvents(audio, format, size) + [Ended(reason)];
    var out := Pump(events, 0, 0, 0);
    assert parts[..0] == [] && events[0..] == events;
    PumpOfChunks(audio, format, size, reason, 0);
    assert forall k :: 0 <= k < |parts| ==> out[k] == DeltaOf(parts, format, 0 + k);
    CollectPumped(out, parts, format, 0, reason, Collected([], None));
  }
}
