/**
 The WAV writer of the ASR bridges against the WAV reader of the Go example:
 chunks as laid out in chapter 2 (RIFF) of the IBM/Microsoft Multimedia
 Programming Interface and Data Specifications 1.0.
 */
module Wav {
  import opened Common

  const U16_LIMIT := 0x1_0000
  const U32_LIMIT := 0x1_0000_0000

  type u16 = x: int | 0 <= x < U16_LIMIT
  type u32 = x: int | 0 <= x < U32_LIMIT

  function LE16(n: u16): (b: seq<byte>)
    ensures |b| == 2
  {
    [n % 256, n / 256]
  }

  function LE32(n: u32): (b: seq<byte>)
    ensures |b| == 4
  {
    LE16(n % U16_LIMIT) + LE16(n / U16_LIMIT)
  }

  function FromLE16(b: seq<byte>): u16
    requires |b| == 2
  {
    (b[0] as int) + (b[1] as int) * 256
  }

  function FromLE32(b: seq<byte>): u32
    requires |b| == 4
  {
    (FromLE16(b[..2]) as int) + (FromLE16(b[2..]) as int) * U16_LIMIT
  }

  lemma LE16RoundTrip(n: u16)
    ensures FromLE16(LE16(n)) == n
  {}

  lemma LE32RoundTrip(n: u32)
    ensures FromLE32(LE32(n)) == n
  {
    assert LE32(n)[..2] == LE16(n % U16_LIMIT) && LE32(n)[2..] == LE16(n / U16_LIMIT);
  }

  const RIFF: seq<byte> := [0x52, 0x49, 0x46, 0x46]
  const WAVE: seq<byte> := [0x57, 0x41, 0x56, 0x45]
  const FMT: seq<byte> := [0x66, 0x6D, 0x74, 0x20]
  const DATA: seq<byte> := [0x64, 0x61, 0x74, 0x61]

  // ---- Writing ----

  datatype WriteError = PayloadTooLarge | ByteRate | BlockAlign | RiffSize

  /** `encode_pcm_s16le_wav`: every product and sum is checked against its integer width. */
  method EncodePcmS16LeWav(pcm: seq<byte>, rate: u32, channels: u16) returns (result: Result<seq<byte>, WriteError>)
    ensures result == Written(pcm, rate, channels)
  {
    if |pcm| > U32_LIMIT - 1 - 44 {
      return Err(PayloadTooLarge);
    }
    if rate * channels >= U32_LIMIT || rate * channels * 2 >= U32_LIMIT {
      return Err(ByteRate);
    }
    var byteRate: u32 := rate * channels * 2;
    if channels * 2 >= U16_LIMIT {
      return Err(BlockAlign);
    }
    var blockAlign: u16 := channels * 2;
    var dataSize: u32 := |pcm|;
    if 36 + dataSize >= U32_LIMIT {
      return Err(RiffSize);
    }
    hide LE16, LE32;
    var wav: seq<byte> := [];
    wav := wav + RIFF;
    wav := wav + LE32(36 + dataSize);
    wav := wav + WAVE;
    assert wav == Riff(|pcm|);
    ghost var fmtFrom := wav;
    wav := wav + FMT;
    wav := wav + LE32(16);
    wav := wav + LE16(1);
    wav := wav + LE16(channels);
    wav := wav + LE32(rate);
    wav := wav + LE32(byteRate);
    wav := wav + LE16(blockAlign);
    wav := wav + LE16(16);
    assert wav == fmtFrom + (FMT + LE32(16) + FmtBody(rate, channels));
    ghost var dataFrom := wav;
    wav := wav + DATA;
    wav := wav + LE32(dataSize);
    wav := wav + pcm;
    assert wav == dataFrom + (DATA + LE32(|pcm|) + pcm);
    result := Ok(wav);
  }

  predicate Fits(pcm: seq<byte>, rate: u32, channels: u16) {
    |pcm| <= U32_LIMIT - 1 - 44 && rate * channels * 2 < U32_LIMIT && channels * 2 < U16_LIMIT
  }

  function Riff(dataSize: nat): seq<byte>
    requires 36 + dataSize < U32_LIMIT
  {
    RIFF + LE32(36 + dataSize) + WAVE
  }

  function FmtBody(rate: u32, channels: u16): seq<byte>
    requires rate * channels * 2 < U32_LIMIT && channels * 2 < U16_LIMIT
  {
    LE16(1) + LE16(channels) + LE32(rate) + LE32(rate * channels * 2) + LE16(channels * 2) + LE16(16)
  }

  /** What the writer produces: a header, a format chunk and a data chunk without padding. */
  function Written(pcm: seq<byte>, rate: u32, channels: u16): Result<seq<byte>, WriteError> {
    if |pcm| > U32_LIMIT - 1 - 44 then Err(PayloadTooLarge)
    else if rate * channels * 2 >= U32_LIMIT then Err(ByteRate)
    else if channels * 2 >= U16_LIMIT then Err(BlockAlign)
    else Ok(Riff(|pcm|) + (FMT + LE32(16) + FmtBody(rate, channels)) + (DATA + LE32(|pcm|) + pcm))
  }

  /** The length guard makes the last overflow check dead: the RIFF size never overflows. */
  lemma RiffSizeNeverOverflows(pcm: seq<byte>, rate: u32, channels: u16)
    ensures Written(pcm, rate, channels) != Err(RiffSize)
    ensures |pcm| <= U32_LIMIT - 1 - 44 ==> 36 + |pcm| < U32_LIMIT
    ensures Written(pcm, rate, channels).Ok? <==> Fits(pcm, rate, channels)
  {}

  // ---- Reading ----

  datatype ReadError = TooSmall | NotRiff | BadChunkSize | EndOfFile | FmtTooSmall | NotPcm | NoData | NoFmt | BadBits

  datatype Audio = Audio(pcm: seq<byte>, rate: u32, channels: u16)

  /** The reader's variables. */
  datatype Scan = Scan(channels: u16, rate: u32, bits: u16, pcm: seq<byte>)

  const NOTHING := Scan(0, 0, 0, [])

  /** What one chunk does to the variables. */
  function Absorb(v: Scan, id: seq<byte>, chunk: seq<byte>): Result<Scan, ReadError> {
    if id == FMT then
      if |chunk| < 16 then Err(FmtTooSmall)
      else if FromLE16(chunk[0..2]) != 1 then Err(NotPcm)
      else Ok(Scan(FromLE16(chunk[2..4]), FromLE32(chunk[4..8]), FromLE16(chunk[14..16]), v.pcm))
    else if id == DATA then Ok(v.(pcm := chunk))
    else Ok(v)
  }

  /**
   One chunk off the front of `rest`: its id, its body, what follows. The length
   comparison is done in 32 bits, and reading nothing at the end of the input is
   an end-of-file error.
   */
  function TakeChunk(rest: seq<byte>): (r: Result<(seq<byte>, seq<byte>, seq<byte>), ReadError>)
    requires |rest| >= 8
    ensures r.Ok? ==> |r.value.2| <= |rest| - 8
  {
    var id, size := rest[..4], FromLE32(rest[4..8]);
    var body := rest[8..];
    if |body| % U32_LIMIT < size then Err(BadChunkSize)
    else if |body| == 0 then Err(EndOfFile)
    else
      var after := body[size..];
      Ok((id, body[..size], if size % 2 == 1 && |after| > 0 then after[1..] else after))
  }

  function ScanChunks(v: Scan, rest: seq<byte>): Result<Scan, ReadError>
    decreases |rest|
  {
    if |rest| < 8 then Ok(v)
    else
      var taken := TakeChunk(rest);
      if taken.Err? then Err(taken.error)
      else
        var next := Absorb(v, taken.value.0, taken.value.1);
        if next.Err? then next else ScanChunks(next.value, taken.value.2)
  }

  function Judged(v: Scan): Result<Audio, ReadError> {
    if v.pcm == [] then Err(NoData)
    else if v.channels == 0 || v.rate == 0 then Err(NoFmt)
    else if v.bits != 16 then Err(BadBits)
    else Ok(Audio(v.pcm, v.rate, v.channels))
  }

  function Parsed(data: seq<byte>): Result<Audio, ReadError> {
    if |data| < 44 then Err(TooSmall)
    else if data[0..4] != RIFF || data[8..12] != WAVE then Err(NotRiff)
    else
      var v := ScanChunks(NOTHING, data[12..]);
      if v.Err? then Err(v.error) else Judged(v.value)
  }

  /** `readWAV`: the reader advances chunk by chunk; each turn consumes at least a chunk header. */
  method ReadWav(data: seq<byte>) returns (result: Result<Audio, ReadError>)
    ensures result == Parsed(data)
  {
    if |data| < 44 {
      return Err(TooSmall);
    }
    if data[0..4] != RIFF || data[8..12] != WAVE {
      return Err(NotRiff);
    }
    var channels: u16, rate: u32, bits: u16, pcm: seq<byte> := 0, 0, 0, [];
    var reader := data[12..];
    while |reader| >= 8
      invariant ScanChunks(NOTHING, data[12..]) == ScanChunks(Scan(channels, rate, bits, pcm), reader)
      decreases |reader|
    {
      var taken := TakeChunk(reader);
      if taken.Err? {
        return Err(taken.error);
      }
      var (id, chunk, after) := taken.value;
      reader := after;
      if id == FMT {
        if |chunk| < 16 {
          return Err(FmtTooSmall);
        }
        var audioFormat := FromLE16(chunk[0..2]);
        channels := FromLE16(chunk[2..4]);
        rate := FromLE32(chunk[4..8]);
        bits := FromLE16(chunk[14..16]);
        if audioFormat != 1 {
          return Err(NotPcm);
        }
      } else if id == DATA {
        pcm := chunk;
      }
    }
    if |pcm| == 0 {
      return Err(NoData);
    }
    if channels == 0 || rate == 0 {
      return Err(NoFmt);
    }
    if bits != 16 {
      return Err(BadBits);
    }
    return Ok(Audio(pcm, rate, channels));
  }

  // ---- Well-formed chunks ----

  /** A chunk as the specification lays it out: id, size, body, and a pad byte after an odd body. */
  datatype Chunk = Chunk(id: seq<byte>, body: seq<byte>, pad: byte)

  ghost predicate ChunkOk(c: Chunk) { |c.id| == 4 && |c.body| < U32_LIMIT }

  ghost function ChunkBytes(c: Chunk): seq<byte>
    requires ChunkOk(c)
  {
    c.id + LE32(|c.body|) + c.body + if |c.body| % 2 == 1 then [c.pad] else []
  }

  ghost function FileBytes(chunks: seq<Chunk>): seq<byte>
    requires forall i :: 0 <= i < |chunks| ==> ChunkOk(chunks[i])
  {
    if chunks == [] then [] else ChunkBytes(chunks[0]) + FileBytes(chunks[1..])
  }

  lemma WholeChunk(c: Chunk, rest: seq<byte>, pad: seq<byte>)
    requires ChunkOk(c) && pad == if |c.body| % 2 == 1 then [c.pad] else []
    ensures var all := ChunkBytes(c) + rest;
            && |all| == 8 + |c.body| + |pad| + |rest|
            && all[..4] == c.id && all[4..8] == LE32(|c.body|)
            && all[8..][..|c.body|] == c.body && all[8..][|c.body|..] == pad + rest
  {
    assert |LE32(|c.body|)| == 4;
    hide LE32;
    var all := ChunkBytes(c) + rest;
    var head := c.id + LE32(|c.body|);
    assert all == head + (c.body + (pad + rest));
    assert all[8..] == c.body + (pad + rest);
    assert head[..4] == c.id && head[4..] == LE32(|c.body|);
    assert all[..4] == head[..4] && all[4..8] == head[4..];
  }

  /** A whole well-formed chunk is taken exactly, unless it is empty and nothing follows it. */
  lemma TakeWhole(c: Chunk, rest: seq<byte>)
    requires ChunkOk(c) && (c.body != [] || rest != [])
    requires |ChunkBytes(c) + rest| < U32_LIMIT
    ensures TakeChunk(ChunkBytes(c) + rest) == Ok((c.id, c.body, rest))
  {
    var all := ChunkBytes(c) + rest;
    var pad := if |c.body| % 2 == 1 then [c.pad] else [];
    WholeChunk(c, rest, pad);
    LE32RoundTrip(|c.body|);
    hide LE32, FromLE32, ChunkBytes;
    if |c.body| % 2 == 1 {
      assert (pad + rest)[1..] == rest;
    } else {
      assert pad + rest == rest;
    }
  }

  /** The scan over a whole chunk and whatever comes next. */
  lemma ScanWhole(v: Scan, c: Chunk, rest: seq<byte>)
    requires ChunkOk(c) && (c.body != [] || rest != [])
    requires |ChunkBytes(c) + rest| < U32_LIMIT
    ensures var next := Absorb(v, c.id, c.body);
            ScanChunks(v, ChunkBytes(c) + rest) == if next.Err? then next else ScanChunks(next.value, rest)
  {
    TakeWhole(c, rest);
    assert |ChunkBytes(c)| >= 8;
    hide TakeChunk, Absorb, ChunkBytes;
  }

  // ---- The two theorems ----

  /** Chunks that cannot be taken as wholes when nothing follows: an empty one at the very end. */
  ghost predicate EndsEmpty(chunks: seq<Chunk>) {
    chunks != [] && chunks[|chunks| - 1].body == []
  }

  /** What whole chunks, one after the other, do to the variables. */
  function AbsorbAll(v: Scan, chunks: seq<Chunk>): Result<Scan, ReadError>
    decreases |chunks|
  {
    if chunks == [] then Ok(v)
    else
      var next := Absorb(v, chunks[0].id, chunks[0].body);
      if next.Err? then next else AbsorbAll(next.value, chunks[1..])
  }

  /** What follows the first chunk is not empty, unless that chunk has a body. */
  lemma FollowedUnlessLast(chunks: seq<Chunk>, rest: seq<byte>)
    requires forall i :: 0 <= i < |chunks| ==> ChunkOk(chunks[i])
    requires chunks != [] && (rest != [] || !EndsEmpty(chunks))
    ensures chunks[0].body != [] || FileBytes(chunks[1..]) + rest != []
    ensures rest != [] || !EndsEmpty(chunks[1..])
  {
    if |chunks| > 1 {
      assert FileBytes(chunks[1..]) == ChunkBytes(chunks[1..][0]) + FileBytes(chunks[1..][1..]);
    }
  }

  /** The scan over a list of whole chunks and whatever comes next. */
  lemma {:induction false} ScanFile(v: Scan, before: seq<Chunk>, rest: seq<byte>)
    requires forall i :: 0 <= i < |before| ==> ChunkOk(before[i])
    requires rest != [] || !EndsEmpty(before)
    requires |FileBytes(before) + rest| < U32_LIMIT
    ensures ScanChunks(v, FileBytes(before) + rest) ==
            var seen := AbsorbAll(v, before); if seen.Err? then seen else ScanChunks(seen.value, rest)
    decreases |before|
  {
    hide ScanChunks, Absorb, ChunkBytes, EndsEmpty;
    if before == [] {
      assert FileBytes(before) + rest == rest;
    } else {
      var tail := FileBytes(before[1..]) + rest;
      assert FileBytes(before) + rest == ChunkBytes(before[0]) + tail;
      FollowedUnlessLast(before, rest);
      hide FileBytes;
      ScanWhole(v, before[0], tail);
      var next := Absorb(v, before[0].id, before[0].body);
      if next.Ok? {
        ScanFile(next.value, before[1..], rest);
      }
    }
  }

  lemma UnknownIsAbsorbed(v: Scan, c: Chunk)
    requires c.id != FMT && c.id != DATA
    ensures Absorb(v, c.id, c.body) == Ok(v)
  {}

  /** A skipped chunk changes nothing that the scan does after chunks it can take. */
  lemma SkippedChunk(before: seq<Chunk>, extra: Chunk, rest: seq<byte>)
    requires forall i :: 0 <= i < |before| ==> ChunkOk(before[i])
    requires ChunkOk(extra) && extra.body != [] && extra.id != FMT && extra.id != DATA
    requires rest != [] || !EndsEmpty(before)
    requires |FileBytes(before) + (ChunkBytes(extra) + rest)| < U32_LIMIT
    ensures ScanChunks(NOTHING, FileBytes(before) + (ChunkBytes(extra) + rest)) ==
            ScanChunks(NOTHING, FileBytes(before) + rest)
  {
    assert |ChunkBytes(extra)| >= 8;
    hide ScanChunks, Absorb, AbsorbAll, ChunkBytes, FileBytes, EndsEmpty;
    ScanFile(NOTHING, before, ChunkBytes(extra) + rest);
    ScanFile(NOTHING, before, rest);
    var seen := AbsorbAll(NOTHING, before);
    if seen.Ok? {
      ScanWhole(seen.value, extra, rest);
      UnknownIsAbsorbed(seen.value, extra);
    }
  }

  lemma {:induction false} FileBytesSnoc(init: seq<Chunk>, last: Chunk)
    requires ChunkOk(last) && forall i :: 0 <= i < |init| ==> ChunkOk(init[i])
    ensures FileBytes(init + [last]) == FileBytes(init) + ChunkBytes(last)
  {
    hide ChunkBytes;
    if init == [] {
      assert init + [last] == [last];
      assert FileBytes([]) == [];
    } else {
      assert (init + [last])[1..] == init[1..] + [last];
      FileBytesSnoc(init[1..], last);
    }
  }

  lemma ScanEmpty(v: Scan, c: Chunk)
    requires ChunkOk(c) && c.body == []
    ensures ScanChunks(v, ChunkBytes(c)) == Err(EndOfFile)
  {
    LE32RoundTrip(0);
    assert ChunkBytes(c)[4..8] == LE32(0) && |ChunkBytes(c)| == 8;
  }

  lemma EmptyIsAbsorbed(v: Scan, c: Chunk)
    requires c.body == []
    ensures Absorb(v, c.id, c.body) != Err(EndOfFile)
  {}

  /** Behind an empty last chunk the scan differs, unless it has failed before that chunk. */
  lemma SkippedAtEnd(init: seq<Chunk>, empty: Chunk, extra: Chunk)
    requires forall i :: 0 <= i < |init| ==> ChunkOk(init[i])
    requires ChunkOk(empty) && empty.body == []
    requires ChunkOk(extra) && extra.body != [] && extra.id != FMT && extra.id != DATA
    requires |FileBytes(init) + (ChunkBytes(empty) + ChunkBytes(extra))| < U32_LIMIT
    ensures var short := ScanChunks(NOTHING, FileBytes(init) + ChunkBytes(empty));
            var long := ScanChunks(NOTHING, FileBytes(init) + (ChunkBytes(empty) + ChunkBytes(extra)));
            if AbsorbAll(NOTHING, init).Err? then long == short
            else short == Err(EndOfFile) && long != Err(EndOfFile)
  {
    assert |ChunkBytes(empty)| >= 8 && |ChunkBytes(extra)| >= 8;
    hide ScanChunks, Absorb, AbsorbAll, ChunkBytes, FileBytes;
    ScanFile(NOTHING, init, ChunkBytes(empty));
    ScanFile(NOTHING, init, ChunkBytes(empty) + ChunkBytes(extra));
    var seen := AbsorbAll(NOTHING, init);
    if seen.Ok? {
      ScanEmpty(seen.value, empty);
      ScanWhole(seen.value, empty, ChunkBytes(extra));
      EmptyIsAbsorbed(seen.value, empty);
      var next := Absorb(seen.value, empty.id, empty.body);
      if next.Ok? {
        assert ChunkBytes(extra) + [] == ChunkBytes(extra);
        ScanWhole(next.value, extra, []);
        UnknownIsAbsorbed(next.value, extra);
        NothingLeft(next.value);
      }
    }
  }

  lemma NothingLeft(v: Scan)
    ensures ScanChunks(v, []) == Ok(v)
  {}

  lemma {:induction false} ScanNeverTooSmall(v: Scan, rest: seq<byte>)
    ensures ScanChunks(v, rest) != Err(TooSmall)
    decreases |rest|
  {
    if |rest| >= 8 && TakeChunk(rest).Ok? {
      var taken := TakeChunk(rest).value;
      if Absorb(v, taken.0, taken.1).Ok? {
        ScanNeverTooSmall(Absorb(v, taken.0, taken.1).value, taken.2);
      }
    }
  }

  predicate IsRiff(header: seq<byte>)
    requires |header| == 12
  {
    header[0..4] == RIFF && header[8..12] == WAVE
  }

  lemma ParsedBehind(header: seq<byte>, body: seq<byte>)
    requires |header| == 12
    ensures Parsed(header + body) ==
            if |header + body| < 44 then Err(TooSmall)
            else if !IsRiff(header) then Err(NotRiff)
            else var v := ScanChunks(NOTHING, body); if v.Err? then Err(v.error) else Judged(v.value)
  {
    hide ScanChunks, Judged;
    assert (header + body)[12..] == body;
    assert (header + body)[0..4] == header[0..4] && (header + body)[8..12] == header[8..12];
  }

  lemma JudgedErrors(v: Scan)
    ensures Judged(v) != Err(EndOfFile) && Judged(v) != Err(TooSmall)
  {}

  /**
   The file is too small even with the insertion, or it was long enough without and
   the insertion is not behind an empty last chunk that the reader gets to.
   */
  ghost predicate Unnoticed(header: seq<byte>, before: seq<Chunk>, extra: Chunk, rest: seq<byte>)
    requires |header| == 12 && ChunkOk(extra) && forall i :: 0 <= i < |before| ==> ChunkOk(before[i])
  {
    || |header + (FileBytes(before) + (ChunkBytes(extra) + rest))| < 44
    || (&& |header + (FileBytes(before) + rest)| >= 44
        && (!IsRiff(header) || rest != [] || !EndsEmpty(before) || AbsorbAll(NOTHING, before[..|before| - 1]).Err?))
  }

  /**
   Inserting a non-empty chunk the reader does not know at a chunk boundary of a
   file under 4 GiB: the result, error or not, is unchanged if and only if the chunk
   goes unnoticed. So it is in every file of at least 44 bytes unless the boundary
   is the end of the file and the chunk before it is empty.
   */
  lemma UnknownChunkIsIgnoredExactly(header: seq<byte>, before: seq<Chunk>, extra: Chunk, rest: seq<byte>)
    requires |header| == 12 && forall i :: 0 <= i < |before| ==> ChunkOk(before[i])
    requires ChunkOk(extra) && extra.body != [] && extra.id != FMT && extra.id != DATA
    requires |header + (FileBytes(before) + (ChunkBytes(extra) + rest))| < U32_LIMIT
    ensures Parsed(header + (FileBytes(before) + (ChunkBytes(extra) + rest))) ==
            Parsed(header + (FileBytes(before) + rest))
            <==> Unnoticed(header, before, extra, rest)
  {
    hide ChunkBytes, FileBytes, Parsed, ScanChunks, AbsorbAll, Judged;
    var (long, short) := (FileBytes(before) + (ChunkBytes(extra) + rest), FileBytes(before) + rest);
    ParsedBehind(header, long);
    ParsedBehind(header, short);
    ScanNeverTooSmall(NOTHING, long);
    var (l, s) := (ScanChunks(NOTHING, long), ScanChunks(NOTHING, short));
    if l.Ok? {
      JudgedErrors(l.value);
    }
    if rest != [] || !EndsEmpty(before) {
      SkippedChunk(before, extra, rest);
    } else {
      var (init, empty) := (before[..|before| - 1], before[|before| - 1]);
      assert before == init + [empty];
      FileBytesSnoc(init, empty);
      assert long == FileBytes(init) + (ChunkBytes(empty) + ChunkBytes(extra))
          && short == FileBytes(init) + ChunkBytes(empty);
      SkippedAtEnd(init, empty, extra);
    }
  }

  /** The format chunk the writer writes is read back. */
  lemma FmtBodyIsAbsorbed(v: Scan, rate: u32, channels: u16)
    requires rate * channels * 2 < U32_LIMIT && channels * 2 < U16_LIMIT
    ensures |FmtBody(rate, channels)| == 16
    ensures Absorb(v, FMT, FmtBody(rate, channels)) == Ok(Scan(channels, rate, 16, v.pcm))
  {
    var b := FmtBody(rate, channels);
    assert b[0..2] == LE16(1) && b[2..4] == LE16(channels) && b[4..8] == LE32(rate) && b[14..16] == LE16(16);
    LE16RoundTrip(1);
    LE16RoundTrip(channels);
    LE32RoundTrip(rate);
    LE16RoundTrip(16);
  }

  const JUNK: seq<byte> := [0x4A, 0x55, 0x4E, 0x4B]
  const EXTRA := Chunk(JUNK, [1, 2], 0)
  const PLAIN: seq<byte> := RIFF + [0, 0, 0, 0] + WAVE

  /** The chunks of a complete file whose last chunk is empty. */
  function EndingEmpty(pcm: seq<byte>, rate: u32, channels: u16): seq<Chunk>
    requires Fits(pcm, rate, channels)
  {
    [Chunk(FMT, FmtBody(rate, channels), 0), Chunk(DATA, pcm, 0), Chunk(JUNK, [], 0)]
  }

  lemma ThreeChunks(a: Chunk, b: Chunk, c: Chunk)
    requires ChunkOk(a) && ChunkOk(b) && ChunkOk(c)
    ensures FileBytes([a, b]) == ChunkBytes(a) + ChunkBytes(b)
    ensures FileBytes([a, b, c]) == FileBytes([a, b]) + ChunkBytes(c)
  {
    hide ChunkBytes;
    FileBytesSnoc([], a);
    FileBytesSnoc([a], b);
    FileBytesSnoc([a, b], c);
    assert [] + [a] == [a] && [a] + [b] == [a, b] && [a, b] + [c] == [a, b, c];
    assert FileBytes([]) + ChunkBytes(a) == ChunkBytes(a);
  }

  /** The length of a chunk in the file. */
  lemma ChunkLength(c: Chunk)
    requires ChunkOk(c)
    ensures |ChunkBytes(c)| == 8 + |c.body| + |c.body| % 2
  {
    assert |LE32(|c.body|)| == 4;
    hide LE32;
  }

  /** The format and the data chunk of an audio set the reader's variables. */
  lemma AudioIsAbsorbed(pcm: seq<byte>, rate: u32, channels: u16)
    requires Fits(pcm, rate, channels)
    ensures AbsorbAll(NOTHING, [Chunk(FMT, FmtBody(rate, channels), 0), Chunk(DATA, pcm, 0)]) ==
            Ok(Scan(channels, rate, 16, pcm))
  {
    FmtBodyIsAbsorbed(NOTHING, rate, channels);
    var (fmt, data) := (Chunk(FMT, FmtBody(rate, channels), 0), Chunk(DATA, pcm, 0));
    var v := Scan(channels, rate, 16, []);
    assert DATA[0] != FMT[0];
    assert Absorb(v, DATA, pcm) == Ok(v.(pcm := pcm));
    hide FmtBody, Absorb;
    assert [fmt, data][1..] == [data] && [data][1..] == [];
    assert AbsorbAll(v.(pcm := pcm), []) == Ok(v.(pcm := pcm));
    assert AbsorbAll(v, [data]) == AbsorbAll(v.(pcm := pcm), [data][1..]);
    assert AbsorbAll(NOTHING, [fmt, data]) == AbsorbAll(v, [fmt, data][1..]);
  }

  /** Behind chunks that set the variables to `v`, an empty last chunk is an error, unless a chunk follows it. */
  lemma EmptyEndScans(before: seq<Chunk>, v: Scan, empty: Chunk, extra: Chunk)
    requires forall i :: 0 <= i < |before| ==> ChunkOk(before[i])
    requires AbsorbAll(NOTHING, before) == Ok(v)
    requires ChunkOk(empty) && empty.body == [] && empty.id != FMT && empty.id != DATA
    requires ChunkOk(extra) && extra.body != [] && extra.id != FMT && extra.id != DATA
    requires |FileBytes(before) + (ChunkBytes(empty) + ChunkBytes(extra))| < U32_LIMIT
    ensures ScanChunks(NOTHING, FileBytes(before) + ChunkBytes(empty)) == Err(EndOfFile)
    ensures ScanChunks(NOTHING, FileBytes(before) + (ChunkBytes(empty) + ChunkBytes(extra))) == Ok(v)
  {
    ChunkLength(empty);
    ChunkLength(extra);
    hide ScanChunks, Absorb, AbsorbAll, ChunkBytes, FileBytes;
    ScanFile(NOTHING, before, ChunkBytes(empty));
    ScanFile(NOTHING, before, ChunkBytes(empty) + ChunkBytes(extra));
    ScanEmpty(v, empty);
    ScanWhole(v, empty, ChunkBytes(extra));
    UnknownIsAbsorbed(v, empty);
    assert ChunkBytes(extra) + [] == ChunkBytes(extra);
    ScanWhole(v, extra, []);
    UnknownIsAbsorbed(v, extra);
    NothingLeft(v);
  }

  lemma JunkIsUnknown()
    ensures JUNK != FMT && JUNK != DATA && ChunkOk(EXTRA) && |JUNK| == 4
    ensures EXTRA.id == JUNK && EXTRA.body == [1, 2] && |ChunkBytes(EXTRA)| == 10
  {
    assert JUNK[0] != FMT[0] && JUNK[0] != DATA[0];
    ChunkLength(EXTRA);
  }

  lemma EndingEmptyLength(pcm: seq<byte>, rate: u32, channels: u16)
    requires Fits(pcm, rate, channels)
    ensures |FmtBody(rate, channels)| == 16
    ensures var (fmt, data) := (Chunk(FMT, FmtBody(rate, channels), 0), Chunk(DATA, pcm, 0));
            && FileBytes(EndingEmpty(pcm, rate, channels)) == FileBytes([fmt, data]) + ChunkBytes(Chunk(JUNK, [], 0))
            && |FileBytes(EndingEmpty(pcm, rate, channels))| == 40 + |pcm| + |pcm| % 2
  {
    FmtBodyIsAbsorbed(NOTHING, rate, channels);
    var (fmt, data, empty) := (Chunk(FMT, FmtBody(rate, channels), 0), Chunk(DATA, pcm, 0), Chunk(JUNK, [], 0));
    hide ChunkBytes, FileBytes, FmtBody;
    ThreeChunks(fmt, data, empty);
    ChunkLength(fmt);
    ChunkLength(data);
    ChunkLength(empty);
  }

  lemma EndingEmptyIsOk(pcm: seq<byte>, rate: u32, channels: u16)
    requires Fits(pcm, rate, channels)
    ensures |FmtBody(rate, channels)| == 16
    ensures var chunks := EndingEmpty(pcm, rate, channels); forall i :: 0 <= i < |chunks| ==> ChunkOk(chunks[i])
  {
    FmtBodyIsAbsorbed(NOTHING, rate, channels);
  }

  /** What the scan makes of that file, without and with a chunk inserted at its end. */
  lemma EndingEmptyScans(pcm: seq<byte>, rate: u32, channels: u16)
    requires Fits(pcm, rate, channels) && |pcm| + 100 < U32_LIMIT
    ensures |FmtBody(rate, channels)| == 16
    ensures var before := EndingEmpty(pcm, rate, channels);
            && ScanChunks(NOTHING, FileBytes(before)) == Err(EndOfFile)
            && ScanChunks(NOTHING, FileBytes(before) + ChunkBytes(EXTRA)) == Ok(Scan(channels, rate, 16, pcm))
  {
    EndingEmptyLength(pcm, rate, channels);
    JunkIsUnknown();
    AudioIsAbsorbed(pcm, rate, channels);
    hide ChunkBytes, FileBytes, FmtBody, ScanChunks, AbsorbAll, Fits;
    var (fmt, data, empty) := (Chunk(FMT, FmtBody(rate, channels), 0), Chunk(DATA, pcm, 0), Chunk(JUNK, [], 0));
    assert FileBytes([fmt, data]) + (ChunkBytes(empty) + ChunkBytes(EXTRA)) ==
      (FileBytes([fmt, data]) + ChunkBytes(empty)) + ChunkBytes(EXTRA);
    EmptyEndScans([fmt, data], Scan(channels, rate, 16, pcm), empty, EXTRA);
  }

  /**
   The first noticed case occurs: any audio in a file that ends with an empty chunk is
   an end-of-file error to the reader, and is read back once a chunk is inserted there.
   */
  lemma EmptyLastChunkMatters(pcm: seq<byte>, rate: u32, channels: u16)
    requires Fits(pcm, rate, channels) && |pcm| + 100 < U32_LIMIT
    requires pcm != [] && rate != 0 && channels != 0
    ensures |FmtBody(rate, channels)| == 16
    ensures var before := EndingEmpty(pcm, rate, channels);
            && Parsed(PLAIN + FileBytes(before)) == Err(EndOfFile)
            && Parsed(PLAIN + (FileBytes(before) + ChunkBytes(EXTRA))) == Ok(Audio(pcm, rate, channels))
            && !Unnoticed(PLAIN, before, EXTRA, [])
  {
    hide *;
    EndingEmptyLength(pcm, rate, channels);
    EndingEmptyScans(pcm, rate, channels);
    EndingEmptyIsOk(pcm, rate, channels);
    JunkIsUnknown();
    PlainIsRiff();
    CompleteIsJudged(pcm, rate, channels);
    var before := EndingEmpty(pcm, rate, channels);
    ParsedBehind(PLAIN, FileBytes(before));
    ParsedBehind(PLAIN, FileBytes(before) + ChunkBytes(EXTRA));
    NothingBehind(before, EXTRA);
    UnknownChunkIsIgnoredExactly(PLAIN, before, EXTRA, []);
  }

  lemma PlainIsRiff()
    ensures |PLAIN| == 12 && IsRiff(PLAIN)
  {}

  lemma CompleteIsJudged(pcm: seq<byte>, rate: u32, channels: u16)
    requires pcm != [] && rate != 0 && channels != 0
    ensures Judged(Scan(channels, rate, 16, pcm)) == Ok(Audio(pcm, rate, channels))
  {}

  lemma NothingBehind(before: seq<Chunk>, extra: Chunk)
    requires ChunkOk(extra) && forall i :: 0 <= i < |before| ==> ChunkOk(before[i])
    ensures FileBytes(before) + (ChunkBytes(extra) + []) == FileBytes(before) + ChunkBytes(extra)
    ensures FileBytes(before) + [] == FileBytes(before)
  {}

  lemma FmtAloneScans(rate: u32, channels: u16)
    requires Fits([], rate, channels)
    ensures |FmtBody(rate, channels)| == 16
    ensures var fmt := Chunk(FMT, FmtBody(rate, channels), 0);
            && FileBytes([fmt]) == ChunkBytes(fmt) && |ChunkBytes(fmt)| == 24
            && ScanChunks(NOTHING, ChunkBytes(fmt) + ChunkBytes(EXTRA)) == Ok(Scan(channels, rate, 16, []))
  {
    FmtBodyIsAbsorbed(NOTHING, rate, channels);
    JunkIsUnknown();
    hide ChunkBytes, FmtBody, ScanChunks, Absorb;
    var (fmt, v) := (Chunk(FMT, FmtBody(rate, channels), 0), Scan(channels, rate, 16, []));
    assert [fmt][1..] == [] && FileBytes([fmt]) == ChunkBytes(fmt) + FileBytes([fmt][1..]);
    hide FileBytes;
    ChunkLength(fmt);
    ScanWhole(NOTHING, fmt, ChunkBytes(EXTRA));
    assert ChunkBytes(EXTRA) + [] == ChunkBytes(EXTRA);
    ScanWhole(v, EXTRA, []);
    UnknownIsAbsorbed(v, EXTRA);
    NothingLeft(v);
  }

  /**
   The second noticed case occurs: a file of a header and a format chunk is too small
   for the reader to look at, and with a chunk inserted it is one without data.
   */
  lemma ShortFileMatters(rate: u32, channels: u16)
    requires Fits([], rate, channels)
    ensures |FmtBody(rate, channels)| == 16
    ensures var fmt := Chunk(FMT, FmtBody(rate, channels), 0);
            && Parsed(PLAIN + FileBytes([fmt])) == Err(TooSmall)
            && Parsed(PLAIN + (FileBytes([fmt]) + ChunkBytes(EXTRA))) == Err(NoData)
            && !Unnoticed(PLAIN, [fmt], EXTRA, [])
  {
    FmtAloneScans(rate, channels);
    JunkIsUnknown();
    PlainIsRiff();
    var fmt := Chunk(FMT, FmtBody(rate, channels), 0);
    hide ChunkBytes, FileBytes, FmtBody, ScanChunks, Parsed, Unnoticed, AbsorbAll, Absorb, Fits, IsRiff;
    ParsedBehind(PLAIN, FileBytes([fmt]));
    ParsedBehind(PLAIN, FileBytes([fmt]) + ChunkBytes(EXTRA));
    NothingBehind([fmt], EXTRA);
    UnknownChunkIsIgnoredExactly(PLAIN, [fmt], EXTRA, []);
  }

  lemma DataChunkIsTaken(pcm: seq<byte>)
    requires |pcm| < U32_LIMIT
    ensures pcm != [] ==> TakeChunk(DATA + LE32(|pcm|) + pcm) == Ok((DATA, pcm, []))
    ensures pcm == [] ==> TakeChunk(DATA + LE32(|pcm|) + pcm) == Err(EndOfFile)
  {
    var all := DATA + LE32(|pcm|) + pcm;
    assert all[..4] == DATA && all[4..8] == LE32(|pcm|) && all[8..] == pcm;
    assert pcm[..|pcm|] == pcm && pcm[|pcm|..] == [];
    LE32RoundTrip(|pcm|);
  }

  /**
   Whenever the writer succeeds, the reader gives back the same samples, rate and
   channel count exactly when there are samples and neither rate nor channels is zero.
   */
  lemma WriterReaderRoundTrip(pcm: seq<byte>, rate: u32, channels: u16)
    requires Written(pcm, rate, channels).Ok?
    ensures Parsed(Written(pcm, rate, channels).value) == Ok(Audio(pcm, rate, channels))
            <==> pcm != [] && rate != 0 && channels != 0
  {
    hide ScanChunks, ChunkBytes, FmtBody, TakeChunk, LE32;
    var wav := Written(pcm, rate, channels).value;
    var fmt := Chunk(FMT, FmtBody(rate, channels), 0);
    var data := DATA + LE32(|pcm|) + pcm;
    FmtBodyIsAbsorbed(NOTHING, rate, channels);
    ChunkBytesOfEven(fmt);
    assert wav == Riff(|pcm|) + (ChunkBytes(fmt) + data);
    assert wav[0..4] == RIFF && wav[8..12] == WAVE && wav[12..] == ChunkBytes(fmt) + data;
    ScanWhole(NOTHING, fmt, data);
    ScanData(Scan(channels, rate, 16, []), pcm);
  }

  lemma ChunkBytesOfEven(c: Chunk)
    requires ChunkOk(c) && |c.body| % 2 == 0
    ensures ChunkBytes(c) == c.id + LE32(|c.body|) + c.body
    ensures |LE32(|c.body|)| == 4
  {}

  lemma ScanData(v: Scan, pcm: seq<byte>)
    requires |pcm| < U32_LIMIT
    ensures |LE32(|pcm|)| == 4
    ensures ScanChunks(v, DATA + LE32(|pcm|) + pcm) == if pcm == [] then Err(EndOfFile) else Ok(v.(pcm := pcm))
  {
    hide LE16;
    DataChunkIsTaken(pcm);
    hide TakeChunk;
    if pcm != [] {
      assert ScanChunks(v.(pcm := pcm), []) == Ok(v.(pcm := pcm));
    }
  }
}
