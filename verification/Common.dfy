/**
 Types and sequence functions shared by the models: bytes, optional values,
 concatenation of a sequence of sequences, and the fixed-size splitting that
 Rust's `slice::chunks` performs.
 */
module Common {

  type byte = x: int | 0 <= x < 256

  type AgentId = string

  /** The id of a play_audio task. */
  type TaskId = string

  datatype Option<+T> = None | Some(value: T)

  datatype Result<+T, +E> = Ok(value: T) | Err(error: E)

  /** The concatenation of all parts, in order. */
  function Concat<T>(parts: seq<seq<T>>): seq<T> {
    if parts == [] then [] else parts[0] + Concat(parts[1..])
  }

  lemma {:induction false} ConcatAppend<T>(a: seq<seq<T>>, b: seq<seq<T>>)
    ensures Concat(a + b) == Concat(a) + Concat(b)
  {
    if a == [] {
      assert a + b == b;
    } else {
      assert (a + b)[1..] == a[1..] + b;
      ConcatAppend(a[1..], b);
    }
  }

  lemma ConcatSnoc<T>(a: seq<seq<T>>, x: seq<T>)
    ensures Concat(a + [x]) == Concat(a) + x
  {
    ConcatAppend(a, [x]);
    assert Concat([x]) == x + Concat([x][1..]);
  }

  /** The parts `s.chunks(size)` yields: every part has `size` elements except a shorter last one. */
  function Chunks<T>(s: seq<T>, size: nat): seq<seq<T>>
    requires size >= 1
  {
    if s == [] then []
    else if |s| <= size then [s]
    else [s[..size]] + Chunks(s[size..], size)
  }

  /** What a channel that takes `room` items has taken of `items`. */
  function Taken<T>(items: seq<T>, room: nat): seq<T> {
    if |items| <= room then items else items[..room]
  }

  lemma TakenStep<T>(all: seq<T>, out: seq<T>, next: T, rest: seq<T>, room: nat)
    requires all == out + ([next] + rest) && |out| <= room
    ensures all == (out + [next]) + rest && (|out| == room ==> Taken(all, room) == out)
  {}

  /** The number of parts of size `size` that cover `n` elements: `n.div_ceil(size)`. */
  function CeilDiv(n: nat, size: nat): nat
    requires size >= 1
  {
    if n <= 0 then 0 else if n <= size then 1 else 1 + CeilDiv(n - size, size)
  }

  /** `CeilDiv` is the ceiling: the least count whose parts cover `n`. */
  lemma {:induction false} CeilDivIsCeiling(n: nat, size: nat)
    requires size >= 1
    ensures n <= CeilDiv(n, size) * size < n + size
  {
    if n > size {
      CeilDivIsCeiling(n - size, size);
    }
  }

  /** Splitting loses nothing, never yields an empty or oversized part, and yields the ceiling count. */
  lemma {:induction false} ChunksRoundTrip<T>(s: seq<T>, size: nat)
    requires size >= 1
    ensures Concat(Chunks(s, size)) == s
    ensures |Chunks(s, size)| == CeilDiv(|s|, size)
    ensures forall i :: 0 <= i < |Chunks(s, size)| ==> 1 <= |Chunks(s, size)[i]| <= size
  {
    if |s| > size {
      ChunksRoundTrip(s[size..], size);
    } else if s != [] {
      ConcatSnoc([], s);
      assert [] + [s] == [s];
    }
  }
}
