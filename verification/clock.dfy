/** The frame clock: at the start of every frame the elapsed time since the
    previous frame is computed from the current time reading, which becomes
    the new reference. The time source itself is a parameter. */
module FrameClock {

  datatype Clock = Clock(lastFrame: real, deltaTime: real)

  /** Both fields start at zero, so the first frame measures from time 0. */
  const Start: Clock := Clock(0.0, 0.0)

  /** One frame's tick with time reading `now`. */
  function Tick(c: Clock, now: real): (c': Clock)
    ensures c'.lastFrame == now
    ensures c.lastFrame + c'.deltaTime == now
  {
    var currentFrame := now;
    Clock(currentFrame, currentFrame - c.lastFrame)
  }

  /** The clock after ticking at each reading of `times`, in order. */
  function Run(c: Clock, times: seq<real>): (c': Clock)
    ensures |times| == 0 ==> c' == c
    ensures |times| > 0 ==> c'.lastFrame == times[|times| - 1]
    ensures |times| == 1 ==> c'.deltaTime == times[0] - c.lastFrame
    ensures |times| > 1 ==> c'.deltaTime == times[|times| - 1] - times[|times| - 2]
    decreases |times|
  {
    if |times| == 0 then c else Run(Tick(c, times[0]), times[1..])
  }

  /** The delta times the frames of `times` see, in order. */
  function Deltas(c: Clock, times: seq<real>): (ds: seq<real>)
    ensures |ds| == |times|
    ensures |times| > 0 ==> ds[0] == times[0] - c.lastFrame
    ensures forall i :: 0 < i < |times| ==> ds[i] == times[i] - times[i - 1]
    decreases |times|
  {
    if |times| == 0 then []
    else [Tick(c, times[0]).deltaTime] + Deltas(Tick(c, times[0]), times[1..])
  }

  function Sum(xs: seq<real>): real
    decreases |xs|
  {
    if |xs| == 0 then 0.0 else xs[0] + Sum(xs[1..])
  }

  /** The first frame after start-up sees the whole time since time 0. */
  lemma FirstDeltaIsFirstReading(times: seq<real>)
    requires |times| > 0
    ensures Deltas(Start, times)[0] == times[0]
    ensures Run(Start, times[..1]).deltaTime == times[0]
  {
    assert times[..1][1..] == [];
  }

  /** The deltas add up to the time elapsed between the clock's reference and
      the last reading: no time is lost or counted twice. */
  lemma {:induction false} DeltasTelescope(c: Clock, times: seq<real>)
    requires |times| > 0
    ensures Sum(Deltas(c, times)) == times[|times| - 1] - c.lastFrame
    decreases |times|
  {
    var c1 := Tick(c, times[0]);
    if |times| > 1 {
      DeltasTelescope(c1, times[1..]);
    }
  }

  /** Readings that never go backwards give non-negative deltas. */
  lemma DeltasNonNegative(c: Clock, times: seq<real>)
    requires |times| > 0 ==> c.lastFrame <= times[0]
    requires forall i, j :: 0 <= i < j < |times| ==> times[i] <= times[j]
    ensures forall i :: 0 <= i < |times| ==> Deltas(c, times)[i] >= 0.0
  {
    var ds := Deltas(c, times);
    forall i | 0 <= i < |times|
      ensures ds[i] >= 0.0
    {
      if i > 0 {
        assert times[i - 1] <= times[i];
      }
    }
  }

  /** Ticking through `times` and then at `now` is ticking through `times + [now]`. */
  lemma {:induction false} RunAppend(c: Clock, times: seq<real>, now: real)
    ensures Run(c, times + [now]) == Tick(Run(c, times), now)
    decreases |times|
  {
    if |times| > 0 {
      assert (times + [now])[1..] == times[1..] + [now];
      RunAppend(Tick(c, times[0]), times[1..], now);
    }
  }
}
