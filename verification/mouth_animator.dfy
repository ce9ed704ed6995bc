/** The lip-sync state machine of `MouthAnimator`
    (src/animation/mouth_animator.py). The clock and the random interval
    draw are inputs. */
module MouthAnimation {

  /** The mouth shapes, in animation order. */
  const MouthStates: seq<string> := ["closed", "small_open", "medium_open", "wide_open"]

  /** Bounds of the randomised frame interval, in milliseconds. */
  const MinInterval := 80
  const MaxInterval := 120
  const InitialInterval := 100

  /** The animator's state as a value. */
  datatype Mouth = Mouth(currentIndex: int, lastUpdate: int, updateInterval: int, speaking: bool)

  ghost predicate MouthOk(m: Mouth)
  {
    0 <= m.currentIndex < |MouthStates| && MinInterval <= m.updateInterval <= MaxInterval
  }

  /** One call of `update` at time `now`, with `draw` the value
      `random.randint(80, 120)` would return: the new state and the shape
      shown. A silent mouth is closed and nothing changes; a speaking mouth
      moves to the next shape once its interval has elapsed and draws a new
      interval. */
  function MouthStep(m: Mouth, now: int, draw: int): (r: (Mouth, string))
    requires MouthOk(m)
    requires MinInterval <= draw <= MaxInterval
    ensures MouthOk(r.0)
  {
    if !m.speaking then (m, "closed")
    else if now - m.lastUpdate > m.updateInterval then
      var m' := m.(currentIndex := (m.currentIndex + 1) % |MouthStates|, lastUpdate := now, updateInterval := draw);
      (m', MouthStates[m'.currentIndex])
    else (m, MouthStates[m.currentIndex])
  }

  /** The shape shown is one of the four: "closed" for a silent mouth,
      which changes nothing, and otherwise the shape at the new index. The
      index moves exactly when the mouth speaks and its interval has
      elapsed, and then a speaking mouth stays speaking. */
  lemma MouthStepFacts(m: Mouth, now: int, draw: int)
    requires MouthOk(m)
    requires MinInterval <= draw <= MaxInterval
    ensures var r := MouthStep(m, now, draw);
      && r.1 in MouthStates
      && (!m.speaking ==> r == (m, "closed"))
      && (m.speaking ==> r.1 == MouthStates[r.0.currentIndex] && r.0.speaking)
      && (r.0.currentIndex != m.currentIndex <==> m.speaking && now - m.lastUpdate > m.updateInterval)
  {
    var r := MouthStep(m, now, draw);
    assert r.1 == MouthStates[if m.speaking then r.0.currentIndex else 0];
  }

  /** A value `random.randint(80, 120)` can return. */
  type IntervalDraw = d: int | MinInterval <= d <= MaxInterval witness MinInterval

  /** The shapes a mouth shows over calls at `times`, the k-th call drawing
      `draws[k]` should its interval elapse, and its final state. */
  function MouthRun(m: Mouth, times: seq<int>, draws: seq<IntervalDraw>): (r: (Mouth, seq<string>))
    requires MouthOk(m)
    requires |draws| == |times|
    ensures MouthOk(r.0) && |r.1| == |times|
    decreases |times|
  {
    if times == [] then (m, [])
    else
      var step := MouthStep(m, times[0], draws[0]);
      var rest := MouthRun(step.0, times[1..], draws[1..]);
      (rest.0, [step.1] + rest.1)
  }

  /** Each call comes more than `MaxInterval` ms after the previous one
      (the first after `start`), so every call is due. */
  predicate Spaced(start: int, times: seq<int>)
  {
    && (|times| > 0 ==> times[0] - start > MaxInterval)
    && forall k :: 0 < k < |times| ==> times[k] - times[k - 1] > MaxInterval
  }

  /** Moving one place and then `k` more is moving `k + 1` places. */
  lemma ShiftMod(i: int, k: int)
    requires 0 <= i < 4 && 0 <= k
    ensures ((i + 1) % 4 + k) % 4 == (i + k + 1) % 4
  {
    if i == 3 {
      assert (i + 1) % 4 == 0;
    } else {
      assert (i + 1) % 4 == i + 1;
    }
  }

  /** The remaining spacing after the first call. */
  lemma SpacedTail(start: int, times: seq<int>)
    requires times != [] && Spaced(start, times)
    ensures Spaced(times[0], times[1..])
  {
    var rest := times[1..];
    forall k | 0 < k < |rest|
      ensures rest[k] - rest[k - 1] > MaxInterval
    {
      assert rest[k] == times[k + 1] && rest[k - 1] == times[k];
    }
  }

  /** A due update of a speaking mouth moves to the next shape and shows it. */
  lemma DueStep(m: Mouth, now: int, draw: int)
    requires MouthOk(m) && m.speaking
    requires MinInterval <= draw <= MaxInterval
    requires now - m.lastUpdate > MaxInterval
    ensures MouthStep(m, now, draw).0 == Mouth((m.currentIndex + 1) % 4, now, draw, true)
    ensures MouthStep(m, now, draw).1 == MouthStates[(m.currentIndex + 1) % 4]
  {
  }

  /** A due update followed by the remaining calls: the run splits after
      its first call. */
  lemma DueUnfold(m: Mouth, times: seq<int>, draws: seq<IntervalDraw>)
    requires MouthOk(m) && m.speaking
    requires |draws| == |times| && times != []
    requires Spaced(m.lastUpdate, times)
    ensures var next := Mouth((m.currentIndex + 1) % 4, times[0], draws[0], true);
      && MouthOk(next) && Spaced(next.lastUpdate, times[1..])
      && MouthRun(m, times, draws)
         == (MouthRun(next, times[1..], draws[1..]).0,
             [MouthStates[(m.currentIndex + 1) % 4]] + MouthRun(next, times[1..], draws[1..]).1)
  {
    DueStep(m, times[0], draws[0]);
    SpacedTail(m.lastUpdate, times);
  }

  /** While speaking, due updates leave the mouth speaking, `|times|`
      places further on, with the last draw as its interval. */
  lemma {:induction false} DueRunState(m: Mouth, times: seq<int>, draws: seq<IntervalDraw>)
    requires MouthOk(m) && m.speaking
    requires |draws| == |times|
    requires Spaced(m.lastUpdate, times)
    ensures MouthRun(m, times, draws).0.speaking
    ensures MouthRun(m, times, draws).0.currentIndex == (m.currentIndex + |times|) % |MouthStates|
    ensures times != [] ==> MouthRun(m, times, draws).0.updateInterval == draws[|draws| - 1]
    decreases |times|
  {
    if times != [] {
      var i := m.currentIndex;
      var next := Mouth((i + 1) % 4, times[0], draws[0], true);
      var rest, restDraws := times[1..], draws[1..];
      DueUnfold(m, times, draws);
      DueRunState(next, rest, restDraws);
      ShiftMod(i, |rest|);
      if rest != [] {
        assert restDraws[|restDraws| - 1] == draws[|draws| - 1];
      }
    }
  }

  /** Showing shape `i + 1` and then the shapes one place apart from
      shape `i + 1` on is showing the shapes one place apart from `i` on. */
  lemma ShiftShapes(i: int, out: seq<string>, tail: seq<string>)
    requires 0 <= i < 4 && out == [MouthStates[(i + 1) % 4]] + tail
    requires forall k :: 0 <= k < |tail| ==> tail[k] == MouthStates[((i + 1) % 4 + k + 1) % |MouthStates|]
    ensures forall k :: 0 <= k < |out| ==> out[k] == MouthStates[(i + k + 1) % |MouthStates|]
  {
    forall k | 0 < k < |out|
      ensures out[k] == MouthStates[(i + k + 1) % 4]
    {
      assert out[k] == tail[k - 1];
      ShiftMod(i, k);
    }
  }

  /** While speaking, the k-th due update shows the shape k + 1 places
      after the starting one. */
  lemma {:induction false} DueRunShapes(m: Mouth, times: seq<int>, draws: seq<IntervalDraw>)
    requires MouthOk(m) && m.speaking
    requires |draws| == |times|
    requires Spaced(m.lastUpdate, times)
    ensures forall k :: 0 <= k < |times| ==>
      MouthRun(m, times, draws).1[k] == MouthStates[(m.currentIndex + k + 1) % |MouthStates|]
    decreases |times|
  {
    if times != [] {
      var i := m.currentIndex;
      var next := Mouth((i + 1) % 4, times[0], draws[0], true);
      DueUnfold(m, times, draws);
      DueRunShapes(next, times[1..], draws[1..]);
      ShiftShapes(i, MouthRun(m, times, draws).1, MouthRun(next, times[1..], draws[1..]).1);
    }
  }

  /** While speaking, every due update moves to the next shape: the k-th
      call shows the shape k + 1 places after the starting one, and the
      mouth ends speaking, `|times|` places on, with the last draw as its
      interval. */
  lemma {:induction false} DueRun(m: Mouth, times: seq<int>, draws: seq<IntervalDraw>)
    requires MouthOk(m) && m.speaking
    requires |draws| == |times|
    requires Spaced(m.lastUpdate, times)
    ensures MouthRun(m, times, draws).0.speaking
    ensures MouthRun(m, times, draws).0.currentIndex == (m.currentIndex + |times|) % |MouthStates|
    ensures times != [] ==> MouthRun(m, times, draws).0.updateInterval == draws[|draws| - 1]
    ensures forall k :: 0 <= k < |times| ==>
      MouthRun(m, times, draws).1[k] == MouthStates[(m.currentIndex + k + 1) % |MouthStates|]
  {
    DueRunState(m, times, draws);
    DueRunShapes(m, times, draws);
  }

  /** The call that shows shape `j`, starting from shape `i`. */
  lemma CycleIndex(i: int, j: int)
    requires 0 <= i < 4 && 0 <= j < 4
    ensures 0 <= (j - i + 3) % 4 < 4 && (i + (j - i + 3) % 4 + 1) % 4 == j
  {
    if j > i {
      assert (j - i + 3) % 4 == j - i - 1;
    } else {
      assert (j - i + 3) % 4 == j - i + 3;
    }
  }

  /** Moving four places comes back to the start. */
  lemma FullTurn(i: int)
    requires 0 <= i < 4
    ensures (i + 4) % 4 == i
  {
  }

  /** Four shapes shown one place apart from shape `i` on cover all four. */
  lemma CycleCovers(i: int, out: seq<string>)
    requires 0 <= i < 4 && |out| == 4
    requires forall k :: 0 <= k < 4 ==> out[k] == MouthStates[(i + k + 1) % 4]
    ensures forall s :: s in MouthStates ==> s in out
  {
    forall j | 0 <= j < |MouthStates|
      ensures MouthStates[j] in out
    {
      var k := (j - i + 3) % 4;
      CycleIndex(i, j);
      assert out[k] == MouthStates[j];
    }
  }

  /** Four due updates of a speaking mouth show all four shapes and come
      back to the starting one. */
  lemma {:induction false} FullCycle(m: Mouth, times: seq<int>, draws: seq<IntervalDraw>)
    requires MouthOk(m) && m.speaking
    requires |draws| == |times|
    requires |times| == |MouthStates| && Spaced(m.lastUpdate, times)
    ensures MouthRun(m, times, draws).0.currentIndex == m.currentIndex
    ensures forall s :: s in MouthStates ==> s in MouthRun(m, times, draws).1
  {
    DueRun(m, times, draws);
    FullTurn(m.currentIndex);
    CycleCovers(m.currentIndex, MouthRun(m, times, draws).1);
  }

  class MouthAnimator {
    var currentIndex: int
    var lastUpdate: int
    var updateInterval: int
    var speaking: bool

    ghost function State(): Mouth
      reads this
    {
      Mouth(currentIndex, lastUpdate, updateInterval, speaking)
    }

    ghost predicate Valid()
      reads this
    {
      MouthOk(State())
    }

    constructor ()
      ensures Valid()
      ensures State() == Mouth(0, 0, InitialInterval, false)
    {
      currentIndex := 0;
      lastUpdate := 0;
      updateInterval := InitialInterval;
      speaking := false;
    }

    /** `start_speaking`: the shape is kept; the interval restarts now. */
    method StartSpeaking(now: int)
      modifies this`speaking, this`lastUpdate
      ensures speaking && lastUpdate == now
    {
      speaking := true;
      lastUpdate := now;
    }

    /** `stop_speaking`: back to the closed mouth. */
    method StopSpeaking()
      modifies this`speaking, this`currentIndex
      ensures !speaking && currentIndex == 0
      ensures MouthStates[currentIndex] == "closed"
    {
      speaking := false;
      currentIndex := 0;
    }

    /** `update`. */
    method Update(now: int, draw: int) returns (shape: string)
      requires Valid()
      requires MinInterval <= draw <= MaxInterval
      modifies this
      ensures Valid()
      ensures (State(), shape) == MouthStep(old(State()), now, draw)
    {
      if !speaking {
        return "closed";
      }
      if now - lastUpdate > updateInterval {
        currentIndex := (currentIndex + 1) % |MouthStates|;
        lastUpdate := now;
        updateInterval := draw;
      }
      shape := MouthStates[currentIndex];
    }
  }
}
