/** The wake-word frame slicing shared by `main.py` and
    `wake_word_daemon.py`: samples accumulate in a buffer, and each loop
    step that finds a whole frame (`frame_length` samples, 512 for the
    Porcupine engine) takes it from the front and hands it to the
    detector. The detector itself is an input: its result is a keyword
    index, or -1 when nothing was heard. */
module WakeWord {
  import opened Pcm16

  /** What `WakeWordEngine.process` returns. */
  type KeywordIndex = x: int | x >= -1

  predicate Detected(k: KeywordIndex)
  {
    k >= 0
  }

  /** One slicing step: the first `frameLength` samples and the rest. */
  function TakeFrame(buffer: seq<int16>, frameLength: nat): (r: (seq<int16>, seq<int16>))
    requires |buffer| >= frameLength
    ensures |r.0| == frameLength && |r.1| == |buffer| - frameLength
    ensures r.0 + r.1 == buffer
  {
    (buffer[..frameLength], buffer[frameLength..])
  }

  /** The frames `k` slicing steps take from `buffer`, in order. */
  function Drain(buffer: seq<int16>, frameLength: nat, k: nat): (r: (seq<seq<int16>>, seq<int16>))
    requires |buffer| >= k * frameLength
    decreases k
  {
    if k == 0 then ([], buffer)
    else
      var (frame, rest) := TakeFrame(buffer, frameLength);
      var (frames, left) := Drain(rest, frameLength, k - 1);
      ([frame] + frames, left)
  }

  function Flatten(frames: seq<seq<int16>>): (s: seq<int16>)
    decreases |frames|
  {
    if frames == [] then [] else frames[0] + Flatten(frames[1..])
  }

  /** Slicing loses and reorders nothing: `k` steps yield `k` frames of
      `frameLength` samples that, joined, are the first `k * frameLength`
      samples, and the buffer keeps the remainder. */
  lemma {:induction false} DrainInOrder(buffer: seq<int16>, frameLength: nat, k: nat)
    requires |buffer| >= k * frameLength
    ensures |Drain(buffer, frameLength, k).0| == k
    ensures forall i :: 0 <= i < k ==> |Drain(buffer, frameLength, k).0[i]| == frameLength
    ensures Flatten(Drain(buffer, frameLength, k).0) == buffer[..k * frameLength]
    ensures Drain(buffer, frameLength, k).1 == buffer[k * frameLength..]
    decreases k
  {
    if k > 0 {
      var n := (k - 1) * frameLength;
      assert k * frameLength == frameLength + n;
      var frame, rest := buffer[..frameLength], buffer[frameLength..];
      assert |rest| >= n;
      DrainInOrder(rest, frameLength, k - 1);
      var d := Drain(rest, frameLength, k - 1);
      var all := [frame] + d.0;
      assert Drain(buffer, frameLength, k) == (all, d.1);
      forall i | 0 <= i < k
        ensures |all[i]| == frameLength
      {
        if i > 0 {
          assert all[i] == d.0[i - 1];
        }
      }
      assert all[1..] == d.0;
      assert Flatten(all) == frame + Flatten(d.0);
      assert buffer[..frameLength + n] == frame + rest[..n];
      assert buffer[frameLength + n..] == rest[n..];
    }
  }
}
