/** Standard base64 as defined in section 4 of RFC 4648 (alphabet A-Z a-z
    0-9 + /, '=' padding): the encoding `base64.b64encode` applies to audio
    sent to the realtime service, and the decoding `base64.b64decode` applies
    to audio deltas received from it. */
module Base64 {
  import opened Wrappers
  import opened Pcm16

  type sextet = x: int | 0 <= x < 64

  const Pad := '='

  /** The value-to-character table of section 4 of RFC 4648. */
  function Char(v: sextet): (c: char)
  {
    if v < 26 then ('A' as int + v) as char
    else if v < 52 then ('a' as int + (v - 26)) as char
    else if v < 62 then ('0' as int + (v - 52)) as char
    else if v == 62 then '+'
    else '/'
  }

  /** The reverse lookup; None for a character outside the alphabet
      (including the pad character). */
  function Value(c: char): (r: Option<sextet>)
  {
    if 'A' <= c <= 'Z' then Some(c as int - 'A' as int)
    else if 'a' <= c <= 'z' then Some(c as int - 'a' as int + 26)
    else if '0' <= c <= '9' then Some(c as int - '0' as int + 52)
    else if c == '+' then Some(62)
    else if c == '/' then Some(63)
    else None
  }

  lemma ValueChar(v: sextet)
    ensures Value(Char(v)) == Some(v)
  {
  }

  predicate InAlphabet(c: char)
  {
    Value(c).Some? || c == Pad
  }

  /** `base64.b64encode`: each group of three bytes becomes four characters;
      a final group of one or two bytes is padded with '=' to four. */
  function Encode(b: seq<byte>): (s: string)
    decreases |b|
  {
    if |b| == 0 then ""
    else if |b| == 1 then
      [Char(b[0] / 4), Char((b[0] % 4) * 16), Pad, Pad]
    else if |b| == 2 then
      [Char(b[0] / 4), Char((b[0] % 4) * 16 + b[1] / 16), Char((b[1] % 16) * 4), Pad]
    else
      [Char(b[0] / 4), Char((b[0] % 4) * 16 + b[1] / 16), Char((b[1] % 16) * 4 + b[2] / 64), Char(b[2] % 64)]
      + Encode(b[3..])
  }

  /** The three bytes a group of four sextets carries. */
  function First(v0: sextet, v1: sextet): byte { v0 * 4 + v1 / 16 }
  function Second(v1: sextet, v2: sextet): byte { (v1 % 16) * 16 + v2 / 4 }
  function Third(v2: sextet, v3: sextet): byte { (v2 % 4) * 64 + v3 }

  /** Four characters to one, two or three bytes; bits below the last whole
      byte of a padded group are ignored, as Python's decoder does. */
  function DecodeQuad(q: string): (r: Option<seq<byte>>)
    requires |q| == 4
    ensures r.Some? ==> 1 <= |r.value| <= 3
  {
    match (Value(q[0]), Value(q[1]), Value(q[2]), Value(q[3]))
    case (Some(v0), Some(v1), Some(v2), Some(v3)) =>
      Some([First(v0, v1), Second(v1, v2), Third(v2, v3)])
    case (Some(v0), Some(v1), Some(v2), None) =>
      if q[3] == Pad then Some([First(v0, v1), Second(v1, v2)]) else None
    case (Some(v0), Some(v1), None, None) =>
      if q[2] == Pad && q[3] == Pad then Some([First(v0, v1)]) else None
    case _ => None
  }

  /** `base64.b64decode` on well-formed input: the text is a whole number of
      four-character groups and only the last group may carry padding.
      Anything else is rejected (None). */
  function Decode(s: string): (r: Option<seq<byte>>)
    decreases |s|
  {
    if |s| == 0 then Some([])
    else if |s| < 4 then None
    else
      match DecodeQuad(s[..4])
      case None => None
      case Some(q) =>
        if |q| < 3 && |s| > 4 then None
        else
          match Decode(s[4..])
          case None => None
          case Some(rest) => Some(q + rest)
  }

  /** The length of the encoding is four characters per started group of
      three bytes, and it uses only the alphabet and the pad character. */
  lemma {:induction false} EncodeShape(b: seq<byte>)
    ensures |Encode(b)| == 4 * ((|b| + 2) / 3)
    ensures forall i :: 0 <= i < |Encode(b)| ==> InAlphabet(Encode(b)[i])
    decreases |b|
  {
    if |b| >= 3 {
      EncodeShape(b[3..]);
      var head := [Char(b[0] / 4), Char((b[0] % 4) * 16 + b[1] / 16), Char((b[1] % 16) * 4 + b[2] / 64), Char(b[2] % 64)];
      var tail := Encode(b[3..]);
      GroupInAlphabet(b[0] / 4, (b[0] % 4) * 16 + b[1] / 16, (b[1] % 16) * 4 + b[2] / 64, b[2] % 64);
      ConcatInAlphabet(head, tail);
      assert Encode(b) == head + tail;
      var n := |b[3..]|;
      assert |tail| == 4 * ((n + 2) / 3);
      assert (|b| + 2) / 3 == (n + 2) / 3 + 1;
    } else if |b| > 0 {
      ValueChar(b[0] / 4);
      ValueChar((b[0] % 4) * 16 + (if |b| == 2 then b[1] / 16 else 0));
      if |b| == 2 {
        ValueChar((b[1] % 16) * 4);
      }
    }
  }

  /** The characters of four sextets are in the alphabet. */
  lemma GroupInAlphabet(v0: sextet, v1: sextet, v2: sextet, v3: sextet)
    ensures var g := [Char(v0), Char(v1), Char(v2), Char(v3)];
      forall i :: 0 <= i < |g| ==> InAlphabet(g[i])
  {
    ValueChar(v0);
    ValueChar(v1);
    ValueChar(v2);
    ValueChar(v3);
  }

  /** Characters of two alphabet-only texts stay in the alphabet when the
      texts are joined. */
  lemma ConcatInAlphabet(a: string, b: string)
    requires forall i :: 0 <= i < |a| ==> InAlphabet(a[i])
    requires forall i :: 0 <= i < |b| ==> InAlphabet(b[i])
    ensures forall i :: 0 <= i < |a + b| ==> InAlphabet((a + b)[i])
  {
    forall i | 0 <= i < |a + b|
      ensures InAlphabet((a + b)[i])
    {
      if i >= |a| {
        assert (a + b)[i] == b[i - |a|];
      }
    }
  }

  /** The first byte of a group survives its split into two sextets. */
  lemma FirstByte(b0: byte, low: int)
    requires 0 <= low < 16
    ensures 0 <= (b0 % 4) * 16 + low < 64
    ensures First(b0 / 4, (b0 % 4) * 16 + low) == b0
    ensures ((b0 % 4) * 16 + low) % 16 == low
  {
  }

  /** The second byte of a group survives its split across two sextets. */
  lemma SecondByte(v1: sextet, b1: byte, low: int)
    requires v1 % 16 == b1 / 16 && 0 <= low < 4
    ensures 0 <= (b1 % 16) * 4 + low < 64
    ensures Second(v1, (b1 % 16) * 4 + low) == b1
    ensures ((b1 % 16) * 4 + low) % 4 == low
  {
  }

  /** The third byte of a group survives its split across two sextets. */
  lemma ThirdByte(v2: sextet, b2: byte)
    requires v2 % 4 == b2 / 64
    ensures Third(v2, b2 % 64) == b2
  {
  }

  /** Decoding one group recovers the bytes it was encoded from. */
  lemma QuadRoundTrip(b: seq<byte>)
    requires 1 <= |b|
    ensures |Encode(b)| >= 4
    ensures DecodeQuad(Encode(b)[..4]) == Some(if |b| >= 3 then b[..3] else b)
  {
    if |b| >= 3 {
      QuadOfThree(b);
    } else if |b| == 2 {
      QuadOfTwo(b);
    } else {
      QuadOfOne(b);
    }
  }

  lemma QuadOfThree(b: seq<byte>)
    requires |b| >= 3
    ensures |Encode(b)| >= 4
    ensures DecodeQuad(Encode(b)[..4]) == Some(b[..3])
  {
    var v0, v1, v2, v3 := b[0] / 4, (b[0] % 4) * 16 + b[1] / 16, (b[1] % 16) * 4 + b[2] / 64, b[2] % 64;
    FirstByte(b[0], b[1] / 16);
    SecondByte(v1, b[1], b[2] / 64);
    ThirdByte(v2, b[2]);
    ValueChar(v0);
    ValueChar(v1);
    ValueChar(v2);
    ValueChar(v3);
    assert Encode(b)[..4] == [Char(v0), Char(v1), Char(v2), Char(v3)];
    assert b[..3] == [First(v0, v1), Second(v1, v2), Third(v2, v3)];
  }

  lemma QuadOfTwo(b: seq<byte>)
    requires |b| == 2
    ensures |Encode(b)| == 4
    ensures DecodeQuad(Encode(b)) == Some(b)
  {
    var v0, v1, v2 := b[0] / 4, (b[0] % 4) * 16 + b[1] / 16, (b[1] % 16) * 4;
    FirstByte(b[0], b[1] / 16);
    SecondByte(v1, b[1], 0);
    ValueChar(v0);
    ValueChar(v1);
    ValueChar(v2);
    assert Encode(b) == [Char(v0), Char(v1), Char(v2), Pad];
    assert Value(Pad) == None;
    assert b == [First(v0, v1), Second(v1, v2)];
  }

  lemma QuadOfOne(b: seq<byte>)
    requires |b| == 1
    ensures |Encode(b)| == 4
    ensures DecodeQuad(Encode(b)) == Some(b)
  {
    var v0, v1 := b[0] / 4, (b[0] % 4) * 16;
    FirstByte(b[0], 0);
    ValueChar(v0);
    ValueChar(v1);
    assert Encode(b) == [Char(v0), Char(v1), Pad, Pad];
    assert Value(Pad) == None;
    assert b == [First(v0, v1)];
  }

  /** `b64decode(b64encode(b)) == b`: decoding an encoding always succeeds
      and gives back exactly the input bytes. */
  lemma {:induction false} DecodeEncode(b: seq<byte>)
    ensures Decode(Encode(b)) == Some(b)
    decreases |b|
  {
    if |b| > 0 {
      var s := Encode(b);
      QuadRoundTrip(b);
      if |b| >= 3 {
        assert s[4..] == Encode(b[3..]);
        DecodeEncode(b[3..]);
        assert b == b[..3] + b[3..];
      } else {
        assert |s| == 4 && s[..4] == s && s[4..] == [];
        assert b + [] == b;
      }
    }
  }

  /** Only the empty fragment encodes to the empty text. */
  lemma EncodeEmpty(b: seq<byte>)
    ensures Encode(b) == "" <==> b == []
  {
  }
}
