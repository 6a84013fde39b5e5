/**
 The base64 codec every audio payload travels in: section 4 of RFC 4648 with
 padding, decoded strictly (canonical padding, zero trailing bits), which is
 what the `STANDARD` engine of the Rust `base64` crate does.
 */
module Base64 {
  import opened Common

  type sextet = x: int | 0 <= x < 64

  function SextetToChar(v: sextet): (c: char)
    ensures c != '='
    ensures CharToSextet(c) == Some(v)
  {
    if v < 26 then (v + 'A' as int) as char
    else if v < 52 then (v - 26 + 'a' as int) as char
    else if v < 62 then (v - 52 + '0' as int) as char
    else if v == 62 then '+' else '/'
  }

  function CharToSextet(c: char): Option<sextet> {
    if 'A' <= c <= 'Z' then Some(c as int - 'A' as int)
    else if 'a' <= c <= 'z' then Some(c as int - 'a' as int + 26)
    else if '0' <= c <= '9' then Some(c as int - '0' as int + 52)
    else if c == '+' then Some(62)
    else if c == '/' then Some(63)
    else None
  }

  function EncodeBlock(a: byte, b: byte, c: byte): string {
    [SextetToChar(a / 4), SextetToChar(a % 4 * 16 + b / 16),
     SextetToChar(b % 16 * 4 + c / 64), SextetToChar(c % 64)]
  }

  function Encode(b: seq<byte>): (s: string) {
    if b == [] then ""
    else if |b| == 1 then
      [SextetToChar(b[0] / 4), SextetToChar(b[0] % 4 * 16), '=', '=']
    else if |b| == 2 then
      [SextetToChar(b[0] / 4), SextetToChar(b[0] % 4 * 16 + b[1] / 16), SextetToChar(b[1] % 16 * 4), '=']
    else
      EncodeBlock(b[0], b[1], b[2]) + Encode(b[3..])
  }

  function Triple(x: sextet, y: sextet, z: sextet, w: sextet): seq<byte> {
    [x * 4 + y / 16, y % 16 * 16 + z / 4, z % 4 * 64 + w]
  }

  function Decode(s: string): Option<seq<byte>> {
    if s == "" then Some([])
    else if |s| < 4 then None
    else
      var x, y, z, w := CharToSextet(s[0]), CharToSextet(s[1]), CharToSextet(s[2]), CharToSextet(s[3]);
      if x.None? || y.None? then None
      else if |s| == 4 && s[2] == '=' && s[3] == '=' then
        if y.value % 16 == 0 then Some([x.value * 4 + y.value / 16]) else None
      else if z.None? then None
      else if |s| == 4 && s[3] == '=' then
        if z.value % 4 == 0 then Some([x.value * 4 + y.value / 16, y.value % 16 * 16 + z.value / 4]) else None
      else if w.None? then None
      else
        var rest := Decode(s[4..]);
        if rest.None? then None
        else Some(Triple(x.value, y.value, z.value, w.value) + rest.value)
  }

  lemma TripleOfBlock(a: byte, b: byte, c: byte)
    ensures Triple(a / 4, a % 4 * 16 + b / 16, b % 16 * 4 + c / 64, c % 64) == [a, b, c]
  {}

  lemma BlockOfTriple(x: sextet, y: sextet, z: sextet, w: sextet)
    ensures var t := Triple(x, y, z, w);
            EncodeBlock(t[0], t[1], t[2]) == [SextetToChar(x), SextetToChar(y), SextetToChar(z), SextetToChar(w)]
  {
    var t := Triple(x, y, z, w);
    assert t[0] / 4 == x && t[0] % 4 == y / 16;
    assert t[1] / 16 == y % 16 && t[1] % 16 == z / 4;
    assert t[2] / 64 == z % 4 && t[2] % 64 == w;
  }

  lemma OneByte(a: byte)
    ensures Decode(Encode([a])) == Some([a]) && |Encode([a])| == 4
  {
    hide CharToSextet, SextetToChar;
    assert Encode([a]) == [SextetToChar(a / 4), SextetToChar(a % 4 * 16), '=', '='];
    hide Encode;
    assert a / 4 * 4 + a % 4 * 16 / 16 == a;
  }

  lemma TwoBytes(a: byte, b: byte)
    ensures Decode(Encode([a, b])) == Some([a, b]) && |Encode([a, b])| == 4
  {
    hide CharToSextet, SextetToChar;
    var x: sextet, y: sextet, z: sextet := a / 4, a % 4 * 16 + b / 16, b % 16 * 4;
    assert Encode([a, b]) == [SextetToChar(x), SextetToChar(y), SextetToChar(z), '='];
    hide Encode;
    assert x * 4 + y / 16 == a && y % 16 * 16 + z / 4 == b && z % 4 == 0;
  }

  /** Decoding undoes encoding on every byte string. */
  lemma {:induction false} RoundTrip(b: seq<byte>)
    ensures Decode(Encode(b)) == Some(b)
    ensures |Encode(b)| == 4 * CeilDiv(|b|, 3)
  {
    hide CharToSextet, SextetToChar;
    if |b| == 0 {
    } else if |b| == 1 {
      OneByte(b[0]);
      assert b == [b[0]];
    } else if |b| == 2 {
      TwoBytes(b[0], b[1]);
      assert b == [b[0], b[1]];
    } else {
      assert Encode(b) == EncodeBlock(b[0], b[1], b[2]) + Encode(b[3..]);
      hide Encode, Decode;
      RoundTrip(b[3..]);
      assert b == [b[0], b[1], b[2]] + b[3..];
      TripleOfBlock(b[0], b[1], b[2]);
      hide Triple;
      DecodeStep(b[0] / 4, b[0] % 4 * 16 + b[1] / 16, b[1] % 16 * 4 + b[2] / 64, b[2] % 64, Encode(b[3..]));
    }
  }

  lemma DecodeStep(x: sextet, y: sextet, z: sextet, w: sextet, tail: string)
    requires Decode(tail).Some?
    ensures var s := [SextetToChar(x), SextetToChar(y), SextetToChar(z), SextetToChar(w)] + tail;
            Decode(s) == Some(Triple(x, y, z, w) + Decode(tail).value)
  {
    hide CharToSextet, SextetToChar, Triple;
    var s := [SextetToChar(x), SextetToChar(y), SextetToChar(z), SextetToChar(w)] + tail;
    assert s[4..] == tail;
  }

  lemma CharInverse(c: char)
    requires CharToSextet(c).Some?
    ensures SextetToChar(CharToSextet(c).value) == c
  {}

  /** The shape of a text that decodes and does not end in its first block. */
  lemma DecodedBlock(s: string)
    requires s != "" && Decode(s).Some? && !(|s| == 4 && s[3] == '=')
    ensures |s| >= 4 && Decode(s[4..]).Some?
    ensures CharToSextet(s[0]).Some? && CharToSextet(s[1]).Some? && CharToSextet(s[2]).Some? && CharToSextet(s[3]).Some?
    ensures Decode(s).value ==
            Triple(CharToSextet(s[0]).value, CharToSextet(s[1]).value, CharToSextet(s[2]).value,
                CharToSextet(s[3]).value)
            + Decode(s[4..]).value
  {
    hide CharToSextet, Triple;
  }

  lemma EncodedBlock(t: seq<byte>, rest: seq<byte>)
    requires |t| == 3
    ensures Encode(t + rest) == EncodeBlock(t[0], t[1], t[2]) + Encode(rest)
  {
    hide EncodeBlock, SextetToChar;
    assert (t + rest)[3..] == rest;
  }

  /** A text that decodes is the encoding of its bytes: the strict decoder accepts nothing else. */
  lemma {:induction false} DecodeIsCanonical(s: string)
    requires Decode(s).Some?
    ensures Encode(Decode(s).value) == s
  {
    if s == "" {
    } else if |s| == 4 && s[3] == '=' {
      if s[2] == '=' {
        CanonicalTwoPads(s);
      } else {
        CanonicalOnePad(s);
      }
    } else {
      DecodedBlock(s);
      hide Encode, Decode, CharToSextet, SextetToChar, Triple, EncodeBlock;
      DecodeIsCanonical(s[4..]);
      CanonicalBlock(s);
    }
  }

  lemma CanonicalBlock(s: string)
    requires |s| >= 4 && forall i :: 0 <= i < 4 ==> CharToSextet(s[i]).Some?
    requires Decode(s[4..]).Some? && Encode(Decode(s[4..]).value) == s[4..]
    ensures var t := Triple(CharToSextet(s[0]).value, CharToSextet(s[1]).value, CharToSextet(s[2]).value,
                            CharToSextet(s[3]).value);
            Encode(t + Decode(s[4..]).value) == s
  {
    hide Encode, Decode, CharToSextet, SextetToChar;
    var x: sextet, y: sextet := CharToSextet(s[0]).value, CharToSextet(s[1]).value;
    var z: sextet, w: sextet := CharToSextet(s[2]).value, CharToSextet(s[3]).value;
    BlockOfTriple(x, y, z, w);
    EncodedBlock(Triple(x, y, z, w), Decode(s[4..]).value);
    CharInverse(s[0]);
    CharInverse(s[1]);
    CharInverse(s[2]);
    CharInverse(s[3]);
    hide Triple, EncodeBlock;
    assert s == [s[0], s[1], s[2], s[3]] + s[4..];
  }

  lemma CanonicalTwoPads(s: string)
    requires |s| == 4 && s[2] == '=' && s[3] == '=' && Decode(s).Some?
    ensures Encode(Decode(s).value) == s
  {
    hide CharToSextet, SextetToChar;
    var x: sextet, y: sextet := CharToSextet(s[0]).value, CharToSextet(s[1]).value;
    CharInverse(s[0]);
    CharInverse(s[1]);
    assert (x * 4 + y / 16) / 4 == x && (x * 4 + y / 16) % 4 * 16 == y;
    assert s == [s[0], s[1], '=', '='];
  }

  lemma CanonicalOnePad(s: string)
    requires |s| == 4 && s[2] != '=' && s[3] == '=' && Decode(s).Some?
    ensures Encode(Decode(s).value) == s
  {
    hide CharToSextet, SextetToChar;
    var x: sextet, y: sextet, z: sextet := CharToSextet(s[0]).value, CharToSextet(s[1]).value, CharToSextet(s[2]).value;
    CharInverse(s[0]);
    CharInverse(s[1]);
    CharInverse(s[2]);
    var a: byte, b: byte := x * 4 + y / 16, y % 16 * 16 + z / 4;
    assert Decode(s).value == [a, b];
    assert a / 4 == x && a % 4 * 16 + b / 16 == y && b % 16 * 4 == z;
    hide Decode;
    assert Encode([a, b]) == [SextetToChar(x), SextetToChar(y), SextetToChar(z), '='];
    assert s == [s[0], s[1], s[2], '='];
  }
}
