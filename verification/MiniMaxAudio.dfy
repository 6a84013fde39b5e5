/**
 Decoding the audio payload MiniMax sends, which may be hexadecimal or base64.
 */
module MiniMaxAudio {
  import opened Common
  import opened Text
  import Base64

  predicate IsHexDigit(c: char) { '0' <= c <= '9' || 'a' <= c <= 'f' || 'A' <= c <= 'F' }

  function HexValue(c: char): (v: nat)
    requires IsHexDigit(c)
    ensures v < 16
  {
    if c <= '9' then c as int - '0' as int
    else if c <= 'F' then c as int - 'A' as int + 10
    else c as int - 'a' as int + 10
  }

  predicate IsHexByte(b: byte) { b < 0x80 && IsHexDigit(b as char) }

  /** `u8::from_str_radix(pair, 16)`: two digits, or a plus sign and one digit. */
  function PairValue(a: byte, b: byte): Option<byte> {
    if IsHexByte(a) && IsHexByte(b) then Some(HexValue(a as char) * 16 + HexValue(b as char))
    else if a == '+' as int && IsHexByte(b) then Some(HexValue(b as char))
    else None
  }

  function HexBytes(bytes: seq<byte>): Option<seq<byte>>
    requires |bytes| % 2 == 0
  {
    if bytes == [] then Some([])
    else
      var head := PairValue(bytes[0], bytes[1]);
      if head.None? then None
      else
        var rest := HexBytes(bytes[2..]);
        if rest.None? then None else Some([head.value] + rest.value)
  }

  function Compact(value: string): string {
    if value == "" then ""
    else (if IsWhitespace(value[0]) then "" else [value[0]]) + Compact(value[1..])
  }

  function HexText(value: string): Option<seq<byte>> {
    var bytes := Utf8(Compact(value));
    if |bytes| % 2 != 0 then None else HexBytes(bytes)
  }

  function Prepend(out: seq<byte>, rest: Option<seq<byte>>): Option<seq<byte>> {
    if rest.None? then None else Some(out + rest.value)
  }

  lemma PrependNothing(rest: Option<seq<byte>>)
    ensures Prepend([], rest) == rest
  {
    if rest.Some? {
      assert [] + rest.value == rest.value;
    }
  }

  lemma PrependTwice(out: seq<byte>, b: byte, rest: Option<seq<byte>>)
    ensures Prepend(out, Prepend([b], rest)) == Prepend(out + [b], rest)
  {
    if rest.Some? {
      assert out + ([b] + rest.value) == (out + [b]) + rest.value;
    }
  }

  lemma HexPair(bytes: seq<byte>)
    requires bytes != [] && |bytes| % 2 == 0
    ensures var pair := PairValue(bytes[0], bytes[1]);
            HexBytes(bytes) == if pair.None? then None else Prepend([pair.value], HexBytes(bytes[2..]))
  {
    hide PairValue;
  }

  lemma HexBytesStep(bytes: seq<byte>, index: nat, out: seq<byte>)
    requires index + 2 <= |bytes| && |bytes| % 2 == 0 && index % 2 == 0
    requires HexBytes(bytes) == Prepend(out, HexBytes(bytes[index..]))
    ensures var pair := PairValue(bytes[index], bytes[index + 1]);
            && (pair.None? ==> HexBytes(bytes).None?)
            && (pair.Some? ==>
                  HexBytes(bytes) == Prepend(out + [pair.value], HexBytes(bytes[index + 2..])))
  {
    hide HexBytes, PairValue;
    var rest := bytes[index..];
    assert rest[2..] == bytes[index + 2..] && rest[0] == bytes[index] && rest[1] == bytes[index + 1];
    HexPair(rest);
    var pair := PairValue(rest[0], rest[1]);
    if pair.Some? {
      PrependTwice(out, pair.value, HexBytes(rest[2..]));
    }
  }

  /** The loop over pairs of bytes. */
  method DecodeHex(value: string) returns (result: Option<seq<byte>>)
    ensures result == HexText(value)
  {
    hide Utf8, Compact, PairValue;
    var bytes := Utf8(Compact(value));
    if |bytes| % 2 != 0 {
      return None;
    }
    var out: seq<byte> := [];
    var index := 0;
    PrependNothing(HexBytes(bytes));
    assert bytes[0..] == bytes;
    while index < |bytes|
      invariant 0 <= index <= |bytes| && index % 2 == 0
      invariant HexBytes(bytes) == Prepend(out, HexBytes(bytes[index..]))
    {
      HexBytesStep(bytes, index, out);
      var pair := PairValue(bytes[index], bytes[index + 1]);
      if pair.None? {
        return None;
      }
      out := out + [pair.value];
      index := index + 2;
    }
    assert out + [] == out;
    result := Some(out);
  }

  predicate AllHex(s: string) { forall i :: 0 <= i < |s| ==> IsHexDigit(s[i]) }

  /** Hexadecimal when the text is an even number of hex digits, else base64, else lenient hexadecimal. */
  function DecodeMiniMaxAudio(encoded: string): Option<seq<byte>> {
    var trimmed := Trim(encoded);
    if trimmed == "" then None
    else if |Utf8(trimmed)| % 2 == 0 && AllHex(trimmed) then HexText(trimmed)
    else if Base64.Decode(trimmed).Some? then Base64.Decode(trimmed)
    else HexText(trimmed)
  }

  // ---- Hexadecimal ----

  /** `h` spells the bytes `b`, two hex digits each, in either case. */
  ghost predicate Spells(h: string, b: seq<byte>) {
    && |h| == 2 * |b| && AllHex(h)
    && forall i :: 0 <= i < |b| ==> b[i] == HexValue(h[2 * i]) * 16 + HexValue(h[2 * i + 1])
  }

  lemma {:induction false} CompactOfHex(s: string)
    requires AllHex(s)
    ensures Compact(s) == s && Ascii(s)
  {
    if s != "" {
      CompactOfHex(s[1..]);
      assert s == [s[0]] + s[1..];
    }
  }

  lemma {:induction false} HexBytesOfDigits(bytes: seq<byte>)
    requires |bytes| % 2 == 0 && forall i :: 0 <= i < |bytes| ==> IsHexByte(bytes[i])
    ensures HexBytes(bytes).Some? && |HexBytes(bytes).value| == |bytes| / 2
    ensures forall i :: 0 <= i < |bytes| / 2 ==>
              Some(HexBytes(bytes).value[i]) == PairValue(bytes[2 * i], bytes[2 * i + 1])
  {
    if bytes != [] {
      HexBytesOfDigits(bytes[2..]);
      var out := HexBytes(bytes).value;
      forall i | 0 <= i < |bytes| / 2
        ensures Some(out[i]) == PairValue(bytes[2 * i], bytes[2 * i + 1])
      {
        if i > 0 {
          assert out[i] == HexBytes(bytes[2..]).value[i - 1];
          assert bytes[2..][2 * (i - 1)] == bytes[2 * i] && bytes[2..][2 * (i - 1) + 1] == bytes[2 * i + 1];
        }
      }
    }
  }

  /** An even number of hex digits decodes to half as many bytes. */
  lemma HexTextOfDigits(h: string)
    requires AllHex(h) && |h| % 2 == 0
    ensures HexText(h).Some? && |HexText(h).value| == |h| / 2 && Spells(h, HexText(h).value)
  {
    CompactOfHex(h);
    Utf8OfAscii(h);
    var bytes := Utf8(h);
    assert forall i :: 0 <= i < |bytes| ==> bytes[i] as char == h[i];
    HexBytesOfDigits(bytes);
    var out := HexBytes(bytes).value;
    forall i | 0 <= i < |out| ensures out[i] == HexValue(h[2 * i]) * 16 + HexValue(h[2 * i + 1]) {
      assert Some(out[i]) == PairValue(bytes[2 * i], bytes[2 * i + 1]);
      assert IsHexByte(bytes[2 * i]) && IsHexByte(bytes[2 * i + 1]);
    }
  }

  lemma SpellingIsUnique(h: string, a: seq<byte>, b: seq<byte>)
    requires Spells(h, a) && Spells(h, b)
    ensures a == b
  {}

  /** Every non-empty byte string survives its hexadecimal spelling, whatever the case of the digits. */
  lemma HexRoundTrip(h: string, b: seq<byte>)
    requires Spells(h, b) && b != []
    ensures DecodeMiniMaxAudio(h) == Some(b)
  {
    CompactOfHex(h);
    Utf8OfAscii(h);
    TrimOfTight(h);
    HexTextOfDigits(h);
    SpellingIsUnique(h, b, HexText(h).value);
    hide HexText, Utf8, Trim, Compact, Base64.Decode;
  }

  // ---- Base64 ----

  lemma {:induction false} Base64IsAscii(b: seq<byte>)
    ensures Ascii(Base64.Encode(b))
    ensures forall i :: 0 <= i < |Base64.Encode(b)| ==> !IsWhitespace(Base64.Encode(b)[i])
  {
    if |b| >= 3 {
      Base64IsAscii(b[3..]);
      SextetCharIsPlain(b[0] / 4);
      SextetCharIsPlain(b[0] % 4 * 16 + b[1] / 16);
      SextetCharIsPlain(b[1] % 16 * 4 + b[2] / 64);
      SextetCharIsPlain(b[2] % 64);
    } else if |b| == 2 {
      SextetCharIsPlain(b[0] / 4);
      SextetCharIsPlain(b[0] % 4 * 16 + b[1] / 16);
      SextetCharIsPlain(b[1] % 16 * 4);
    } else if |b| == 1 {
      SextetCharIsPlain(b[0] / 4);
      SextetCharIsPlain(b[0] % 4 * 16);
    }
  }

  lemma SextetCharIsPlain(v: Base64.sextet)
    ensures Base64.SextetToChar(v) as int < 0x80 && !IsWhitespace(Base64.SextetToChar(v))
  {}

  lemma ShortEndsPadded(b: seq<byte>)
    requires 0 < |b| < 3
    ensures |Base64.Encode(b)| == 4 && Base64.Encode(b)[3] == '='
  {}

  /** Padding is not a hex digit, so base64 made of hex digits encodes whole triples. */
  lemma {:induction false} HexLookalikeHasNoPadding(b: seq<byte>)
    requires AllHex(Base64.Encode(b))
    ensures 3 * |Base64.Encode(b)| == 4 * |b|
  {
    if |b| >= 3 {
      var s := Base64.Encode(b);
      assert s[4..] == Base64.Encode(b[3..]);
      assert AllHex(s[4..]);
      HexLookalikeHasNoPadding(b[3..]);
    } else if |b| > 0 {
      ShortEndsPadded(b);
      assert false;
    }
  }

  /**
   Base64 survives exactly when its text cannot be mistaken for hexadecimal: when
   some character of it is not a hex digit.
   */
  lemma Base64RoundTripExactly(b: seq<byte>)
    requires b != []
    ensures DecodeMiniMaxAudio(Base64.Encode(b)) == Some(b) <==> !AllHex(Base64.Encode(b))
  {
    hide Base64.Encode, Base64.Decode, HexText;
    var s := Base64.Encode(b);
    Base64.RoundTrip(b);
    Base64IsAscii(b);
    assert s != "" && |s| % 2 == 0;
    TrimOfTight(s);
    Utf8OfAscii(s);
    if AllHex(s) {
      HexTextOfDigits(s);
      HexLookalikeHasNoPadding(b);
    }
  }

  /** Such bytes exist: these three are spelled "abcd" in base64, which is read as two bytes of hexadecimal. */
  lemma HexLookalikeIsMisread()
    ensures var b: seq<byte> := [0x69, 0xB7, 0x1D];
            && Base64.Encode(b) == "abcd" && AllHex(Base64.Encode(b))
            && DecodeMiniMaxAudio(Base64.Encode(b)) == Some([0xAB, 0xCD])
  {
    var b: seq<byte> := [0x69, 0xB7, 0x1D];
    assert Base64.Encode(b) == "abcd" by {
      assert b[3..] == [];
      assert Base64.SextetToChar(26) == 'a' && Base64.SextetToChar(27) == 'b';
      assert Base64.SextetToChar(28) == 'c' && Base64.SextetToChar(29) == 'd';
    }
    hide Base64.Encode, Base64.Decode;
    assert Spells("abcd", [0xAB, 0xCD]);
    HexRoundTrip("abcd", [0xAB, 0xCD]);
  }

  // ---- Never empty ----

  lemma {:induction false} HexBytesHalves(bytes: seq<byte>)
    requires |bytes| % 2 == 0 && HexBytes(bytes).Some?
    ensures |HexBytes(bytes).value| == |bytes| / 2
  {
    if bytes != [] {
      HexBytesHalves(bytes[2..]);
    }
  }

  /** A payload that decodes at all decodes to at least one byte. */
  lemma DecodedIsNeverEmpty(encoded: string)
    ensures DecodeMiniMaxAudio(encoded) != Some([])
  {
    var trimmed := Trim(encoded);
    var left, right := TrimSplits(encoded);
    if trimmed != "" {
      if HexText(trimmed).Some? {
        HexBytesHalves(Utf8(Compact(trimmed)));
        Utf8NotEmpty(Compact(trimmed));
        assert Compact(trimmed)[0] == trimmed[0];
      }
      if Base64.Decode(trimmed).Some? {
        Base64.DecodeIsCanonical(trimmed);
      }
    }
  }
}
