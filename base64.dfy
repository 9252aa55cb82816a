/**
 * The base 64 encoding of section 4 of RFC 4648 (alphabet A-Z a-z 0-9 + /,
 * '=' padding), as PHP's `base64_encode` produces it, with its decoding.
 */
module Base64 {
  import opened Php

  type Byte = x: int | 0 <= x < 256

  /** The character for a 6-bit value (Table 1 of RFC 4648). */
  function Sextet(v: int): (c: char)
    requires 0 <= v < 64
    ensures c != '='
  {
    if v < 26 then ('A' as int + v) as char
    else if v < 52 then ('a' as int + v - 26) as char
    else if v < 62 then ('0' as int + v - 52) as char
    else if v == 62 then '+'
    else '/'
  }

  /** The 6-bit value of an alphabet character; None for any other character. */
  function SextetValue(c: char): (r: Option<int>)
    ensures r.Some? ==> 0 <= r.value < 64 && Sextet(r.value) == c
  {
    if 'A' <= c <= 'Z' then Some(c as int - 'A' as int)
    else if 'a' <= c <= 'z' then Some(c as int - 'a' as int + 26)
    else if '0' <= c <= '9' then Some(c as int - '0' as int + 52)
    else if c == '+' then Some(62)
    else if c == '/' then Some(63)
    else None
  }

  lemma SextetRoundTrip(v: int)
    requires 0 <= v < 64
    ensures SextetValue(Sextet(v)) == Some(v)
  {
  }

  /** The four characters for three bytes. */
  function EncodeGroup(b0: Byte, b1: Byte, b2: Byte): (s: string)
    ensures |s| == 4 && '=' !in s
  {
    [Sextet(b0 / 4), Sextet((b0 % 4) * 16 + b1 / 16), Sextet((b1 % 16) * 4 + b2 / 64), Sextet(b2 % 64)]
  }

  /** Encodes every group of three bytes as four characters, padding the last group. */
  function Encode(b: seq<Byte>): (s: string)
    ensures |s| == 4 * ((|b| + 2) / 3)
    decreases |b|
  {
    if |b| == 0 then ""
    else if |b| == 1 then
      [Sextet(b[0] / 4), Sextet((b[0] % 4) * 16), '=', '=']
    else if |b| == 2 then
      [Sextet(b[0] / 4), Sextet((b[0] % 4) * 16 + b[1] / 16), Sextet((b[1] % 16) * 4), '=']
    else
      EncodeGroup(b[0], b[1], b[2]) + Encode(b[3..])
  }

  /** The bytes of one group of four characters, the last one or two of which may be padding. */
  function DecodeGroup(c0: char, c1: char, c2: char, c3: char): Option<seq<Byte>>
  {
    var v0, v1, v2, v3 := SextetValue(c0), SextetValue(c1), SextetValue(c2), SextetValue(c3);
    if v0.None? || v1.None? then None
    else if c2 == '=' && c3 == '=' then Some([v0.value * 4 + v1.value / 16])
    else if v2.None? then None
    else if c3 == '=' then Some([v0.value * 4 + v1.value / 16, (v1.value % 16) * 16 + v2.value / 4])
    else if v3.None? then None
    else Some([v0.value * 4 + v1.value / 16, (v1.value % 16) * 16 + v2.value / 4, (v2.value % 4) * 64 + v3.value])
  }

  /** Decodes a padded encoding; None when `s` is not one. */
  function Decode(s: string): Option<seq<Byte>>
    decreases |s|
  {
    if |s| == 0 then Some([])
    else if |s| < 4 then None
    else
      match DecodeGroup(s[0], s[1], s[2], s[3])
      case None => None
      case Some(head) =>
        if |head| < 3 then (if |s| == 4 then Some(head) else None)
        else
          match Decode(s[4..])
          case None => None
          case Some(rest) => Some(head + rest)
  }

  lemma DecodeOneByte(b0: Byte)
    ensures DecodeGroup(Sextet(b0 / 4), Sextet((b0 % 4) * 16), '=', '=') == Some([b0])
  {
    SextetRoundTrip(b0 / 4);
    SextetRoundTrip((b0 % 4) * 16);
  }

  lemma DecodeTwoBytes(b0: Byte, b1: Byte)
    ensures DecodeGroup(Sextet(b0 / 4), Sextet((b0 % 4) * 16 + b1 / 16), Sextet((b1 % 16) * 4), '=')
            == Some([b0, b1])
  {
    var v1 := (b0 % 4) * 16 + b1 / 16;
    SextetRoundTrip(b0 / 4);
    SextetRoundTrip(v1);
    SextetRoundTrip((b1 % 16) * 4);
    assert v1 / 16 == b0 % 4 && v1 % 16 == b1 / 16;
  }

  lemma DecodeThreeBytes(b0: Byte, b1: Byte, b2: Byte)
    ensures var g := EncodeGroup(b0, b1, b2); DecodeGroup(g[0], g[1], g[2], g[3]) == Some([b0, b1, b2])
  {
    var v1 := (b0 % 4) * 16 + b1 / 16;
    var v2 := (b1 % 16) * 4 + b2 / 64;
    SextetRoundTrip(b0 / 4);
    SextetRoundTrip(v1);
    SextetRoundTrip(v2);
    SextetRoundTrip(b2 % 64);
    assert v1 / 16 == b0 % 4 && v1 % 16 == b1 / 16;
    assert v2 / 4 == b1 % 16 && v2 % 4 == b2 / 64;
  }

  lemma RoundTripOne(b0: Byte)
    ensures Decode(Encode([b0])) == Some([b0])
  {
    var s := Encode([b0]);
    assert s == [Sextet(b0 / 4), Sextet((b0 % 4) * 16), '=', '='];
    DecodeOneByte(b0);
  }

  lemma RoundTripTwo(b0: Byte, b1: Byte)
    ensures Decode(Encode([b0, b1])) == Some([b0, b1])
  {
    var s := Encode([b0, b1]);
    assert s == [Sextet(b0 / 4), Sextet((b0 % 4) * 16 + b1 / 16), Sextet((b1 % 16) * 4), '='];
    DecodeTwoBytes(b0, b1);
  }

  lemma SplitGroup(b: seq<Byte>)
    requires |b| >= 3
    ensures b == [b[0], b[1], b[2]] + b[3..]
  {
    assert b[..3] == [b[0], b[1], b[2]];
    assert b == b[..3] + b[3..];
  }

  /** Decoding undoes encoding, for every byte string. */
  lemma {:induction false} DecodeEncode(b: seq<Byte>)
    ensures Decode(Encode(b)) == Some(b)
    decreases |b|
  {
    if |b| == 0 {
    } else if |b| <= 2 {
      if |b| == 1 {
        assert b == [b[0]];
        RoundTripOne(b[0]);
      } else {
        assert b == [b[0], b[1]];
        RoundTripTwo(b[0], b[1]);
      }
    } else {
      var g, tail := EncodeGroup(b[0], b[1], b[2]), Encode(b[3..]);
      DecodeEncode(b[3..]);
      DecodeThreeBytes(b[0], b[1], b[2]);
      var s := g + tail;
      assert s[0] == g[0] && s[1] == g[1] && s[2] == g[2] && s[3] == g[3];
      assert s[4..] == tail;
      SplitGroup(b);
    }
  }
}
