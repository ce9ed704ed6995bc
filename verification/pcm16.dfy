/** The byte-level audio primitives the audio path uses from Python's `struct`
    and `audioop` modules: 16-bit little-endian PCM samples, mono-to-stereo
    duplication, and the streaming rate converter as an opaque function. */
module Pcm16 {
  import opened Wrappers

  type byte = x: int | 0 <= x < 0x100
  type int16 = x: int | -0x8000 <= x < 0x8000

  /** Bytes per sample: every stream in the system is 16-bit PCM. */
  const SampleWidth := 2

  /** The carry-over state of `audioop.ratecv`. It is never inspected by the
      system; it is only threaded from one call to the next, or reset. */
  datatype RateCvState = RateCvState(carry: int, history: seq<int>)

  /** `audioop.ratecv(fragment, 2, 1, inRate, outRate, state)`: a foreign
      routine, modelled as an arbitrary total function supplied by the
      caller. It returns the converted fragment and the new state. */
  type RateCv = (seq<byte>, int, int, Option<RateCvState>) -> (seq<byte>, RateCvState)

  /** One little-endian sample from its low and high byte. */
  function Decode16(lo: byte, hi: byte): (s: int16)
  {
    var u := lo + 0x100 * hi;
    if u < 0x8000 then u else u - 0x10000
  }

  function Low(s: int16): (b: byte)
  {
    (if s < 0 then s + 0x10000 else s) % 0x100
  }

  function High(s: int16): (b: byte)
  {
    (if s < 0 then s + 0x10000 else s) / 0x100
  }

  /** `struct.unpack_from("h" * (len(b) // 2), b)`: every whole sample of the
      fragment, in order; a trailing odd byte is ignored. */
  function Samples(b: seq<byte>): (s: seq<int16>)
    decreases |b|
  {
    if |b| < 2 then [] else [Decode16(b[0], b[1])] + Samples(b[2..])
  }

  /** The inverse packing, `struct.pack("h" * n, *s)`. */
  function Pack(s: seq<int16>): (b: seq<byte>)
  {
    if s == [] then [] else [Low(s[0]), High(s[0])] + Pack(s[1..])
  }

  lemma Decode16Inverse(s: int16)
    ensures Decode16(Low(s), High(s)) == s
  {
    var u := if s < 0 then s + 0x10000 else s;
    assert 0 <= u < 0x10000;
    assert Low(s) + 0x100 * High(s) == u;
  }

  lemma {:induction false} SamplesLength(b: seq<byte>)
    ensures |Samples(b)| == |b| / 2
    decreases |b|
  {
    if |b| >= 2 {
      SamplesLength(b[2..]);
    }
  }

  /** Unpacking a fragment yields sample i from bytes 2i and 2i+1. */
  lemma {:induction false} SamplesAt(b: seq<byte>, i: nat)
    requires i < |b| / 2
    ensures |Samples(b)| == |b| / 2
    ensures Samples(b)[i] == Decode16(b[2 * i], b[2 * i + 1])
    decreases |b|
  {
    SamplesLength(b);
    if i > 0 {
      SamplesAt(b[2..], i - 1);
    }
  }

  /** Packing then unpacking gives back every sample, in order. */
  lemma {:induction false} SamplesPack(s: seq<int16>)
    ensures |Pack(s)| == 2 * |s|
    ensures Samples(Pack(s)) == s
  {
    if s != [] {
      SamplesPack(s[1..]);
      Decode16Inverse(s[0]);
      assert Pack(s)[2..] == Pack(s[1..]);
    }
  }

  /** Each whole 2-byte frame written twice, left then right. */
  function Duplicate(b: seq<byte>): (r: seq<byte>)
    decreases |b|
  {
    if |b| < 2 then [] else b[..2] + b[..2] + Duplicate(b[2..])
  }

  /** `audioop.tostereo(fragment, 2, 1, 1)`: fails with "not a whole number of
      frames" when the length is odd; otherwise both channels get the sample
      unchanged (a factor of 1 never clips). */
  function ToStereo(b: seq<byte>): (r: Option<seq<byte>>)
    ensures r.Some? <==> |b| % 2 == 0
  {
    if |b| % 2 != 0 then None else Some(Duplicate(b))
  }

  /** The left channel of an interleaved 16-bit stereo fragment. */
  function LeftChannel(st: seq<byte>): (b: seq<byte>)
    decreases |st|
  {
    if |st| < 4 then [] else st[..2] + LeftChannel(st[4..])
  }

  /** The right channel of an interleaved 16-bit stereo fragment. */
  function RightChannel(st: seq<byte>): (b: seq<byte>)
    decreases |st|
  {
    if |st| < 4 then [] else st[2..4] + RightChannel(st[4..])
  }

  /** Stereo expansion doubles the length and puts the original mono
      fragment, unchanged, on both channels. */
  lemma {:induction false} DuplicateChannels(b: seq<byte>)
    requires |b| % 2 == 0
    ensures |Duplicate(b)| == 2 * |b|
    ensures LeftChannel(Duplicate(b)) == b
    ensures RightChannel(Duplicate(b)) == b
    decreases |b|
  {
    if |b| >= 2 {
      var d := Duplicate(b);
      DuplicateChannels(b[2..]);
      assert d[4..] == Duplicate(b[2..]);
      assert d[..2] == b[..2] && d[2..4] == b[..2];
      assert b == b[..2] + b[2..];
    }
  }
}
