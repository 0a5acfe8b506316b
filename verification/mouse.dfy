/** The cursor tracker: each cursor sample is turned into a look offset
    relative to the previous sample. The very first sample only sets the
    reference, so the camera does not jump when the cursor is captured. */
module MouseTracker {

  datatype Mouse = Mouse(lastX: real, lastY: real, firstMouse: bool)

  /** A raw cursor position in screen coordinates (y grows downwards). */
  datatype Cursor = Cursor(x: real, y: real)

  /** A look offset handed to the camera; `dy` grows upwards. */
  datatype Offset = Offset(dx: real, dy: real)

  datatype Sampled = Sampled(mouse: Mouse, offset: Offset)

  /** The screen size the reference starts from the centre of. */
  const ScreenWidth: real := 1920.0
  const ScreenHeight: real := 1000.0

  const Start: Mouse := Mouse(ScreenWidth / 2.0, ScreenHeight / 2.0, true)

  /** One cursor sample. */
  function OnCursor(m: Mouse, xpos: real, ypos: real): (r: Sampled)
    ensures r.mouse == Mouse(xpos, ypos, false)
    ensures m.firstMouse ==> r.offset == Offset(0.0, 0.0)
    ensures !m.firstMouse ==> r.offset == Offset(xpos - m.lastX, m.lastY - ypos)
  {
    var anchor := if m.firstMouse then Mouse(xpos, ypos, false) else m;
    Sampled(Mouse(xpos, ypos, false), Offset(xpos - anchor.lastX, anchor.lastY - ypos))
  }

  /** The tracker after a batch of samples, and the offsets they produced. */
  function Replay(m: Mouse, samples: seq<Cursor>): (r: (Mouse, seq<Offset>))
    ensures |r.1| == |samples|
    ensures |samples| == 0 ==> r.0 == m
    ensures |samples| > 0 ==>
              r.0 == Mouse(samples[|samples| - 1].x, samples[|samples| - 1].y, false)
    ensures |samples| > 0 ==> r.1[0] == OnCursor(m, samples[0].x, samples[0].y).offset
    decreases |samples|
  {
    if |samples| == 0 then (m, [])
    else
      var step := OnCursor(m, samples[0].x, samples[0].y);
      var rest := Replay(step.mouse, samples[1..]);
      (rest.0, [step.offset] + rest.1)
  }

  /** Every sample after the first of a batch is measured from the sample
      before it. */
  lemma {:induction false} ReplayOffsets(m: Mouse, samples: seq<Cursor>, i: nat)
    requires 0 < i < |samples|
    ensures Replay(m, samples).1[i]
         == Offset(samples[i].x - samples[i - 1].x, samples[i - 1].y - samples[i].y)
    decreases |samples|
  {
    var step := OnCursor(m, samples[0].x, samples[0].y);
    if i > 1 {
      ReplayOffsets(step.mouse, samples[1..], i - 1);
    }
  }

  function SumX(os: seq<Offset>): real
    decreases |os|
  {
    if |os| == 0 then 0.0 else os[0].dx + SumX(os[1..])
  }

  function SumY(os: seq<Offset>): real
    decreases |os|
  {
    if |os| == 0 then 0.0 else os[0].dy + SumY(os[1..])
  }

  /** Whatever the cursor reads on the first sample of a fresh tracker, the
      offset is zero. */
  lemma FirstSampleSuppressed(xpos: real, ypos: real)
    ensures OnCursor(Start, xpos, ypos).offset == Offset(0.0, 0.0)
    ensures !OnCursor(Start, xpos, ypos).mouse.firstMouse
  {
  }

  /** Offsets chain: from a tracker that has seen a sample, the offsets of a
      batch add up to the displacement from the last seen position to the
      final sample (with y reversed). */
  lemma {:induction false} OffsetsTelescope(m: Mouse, samples: seq<Cursor>)
    requires !m.firstMouse && |samples| > 0
    ensures SumX(Replay(m, samples).1) == samples[|samples| - 1].x - m.lastX
    ensures SumY(Replay(m, samples).1) == m.lastY - samples[|samples| - 1].y
    decreases |samples|
  {
    var step := OnCursor(m, samples[0].x, samples[0].y);
    if |samples| > 1 {
      OffsetsTelescope(step.mouse, samples[1..]);
    }
  }

  /** From a fresh tracker the offsets add up to the displacement from the
      first sample to the last: the start-up reference never leaks in. */
  lemma FreshOffsetsTelescope(samples: seq<Cursor>)
    requires |samples| > 0
    ensures SumX(Replay(Start, samples).1) == samples[|samples| - 1].x - samples[0].x
    ensures SumY(Replay(Start, samples).1) == samples[0].y - samples[|samples| - 1].y
  {
    var step := OnCursor(Start, samples[0].x, samples[0].y);
    if |samples| > 1 {
      OffsetsTelescope(step.mouse, samples[1..]);
    }
  }

  /** Feeding two batches one after the other is feeding their concatenation. */
  lemma {:induction false} ReplayAppend(m: Mouse, a: seq<Cursor>, b: seq<Cursor>)
    ensures Replay(m, a + b).0 == Replay(Replay(m, a).0, b).0
    ensures Replay(m, a + b).1 == Replay(m, a).1 + Replay(Replay(m, a).0, b).1
    decreases |a|
  {
    if |a| == 0 {
      assert a + b == b;
    } else {
      var step := OnCursor(m, a[0].x, a[0].y);
      assert (a + b)[0] == a[0];
      assert (a + b)[1..] == a[1..] + b;
      ReplayAppend(step.mouse, a[1..], b);
      var tail := Replay(step.mouse, a[1..] + b);
      var front := Replay(step.mouse, a[1..]);
      assert Replay(m, a + b) == (tail.0, [step.offset] + tail.1);
      assert Replay(m, a) == (front.0, [step.offset] + front.1);
    }
  }
}
