/** One iteration of the render loop as far as state is concerned: tick the
    clock, let the held keys move the camera, correct the position against the
    room and the obstacles, then feed the cursor samples delivered while events
    are polled to the mouse tracker. Key state, the camera's own movement rule
    and the time source are supplied from outside. */
module Session {
  import opened Geometry
  import opened World
  import FrameClock
  import MouseTracker

  datatype State = State(position: Vec3, clock: FrameClock.Clock, mouse: MouseTracker.Mouse)

  /** The camera starts at eye height, three units along z. */
  const InitialPosition: Vec3 := Vec3(0.0, 1.8, 3.0)

  const Initial: State := State(InitialPosition, FrameClock.Start, MouseTracker.Start)

  /** What the outside world supplies for one frame: the time reading, the
      movement the held keys cause from a position over a delta time, and the
      cursor samples delivered at the end of the frame. */
  datatype FrameInput = FrameInput(
    now: real,
    move: (Vec3, real) -> Vec3,
    cursor: seq<MouseTracker.Cursor>)

  /** The state after a frame and the look offsets handed to the camera. */
  datatype FrameOutput = FrameOutput(state: State, looks: seq<MouseTracker.Offset>)

  /** A position the correction accepted: at eye height, in the room, outside
      every obstacle. */
  predicate Settled(p: Vec3) {
    p.y == CameraHeight && InRoom(p) && !AnyCollision(Obstacles, p)
  }

  function Frame(s: State, input: FrameInput): (r: FrameOutput)
    ensures r.state.clock.lastFrame == input.now
    ensures r.state.clock.deltaTime == input.now - s.clock.lastFrame
    ensures InRoom(r.state.position)
    ensures Settled(r.state.position)
         || (AnyCollision(Obstacles, r.state.position)
             && r.state.position == input.move(s.position, r.state.clock.deltaTime))
    ensures r.state.position == UpdatePosition(input.move(s.position, r.state.clock.deltaTime))
    ensures (r.state.mouse, r.looks) == MouseTracker.Replay(s.mouse, input.cursor)
    ensures |r.looks| == |input.cursor|
    ensures |input.cursor| == 0 ==> r.state.mouse == s.mouse
    ensures |input.cursor| > 0 ==> !r.state.mouse.firstMouse
  {
    var clock := FrameClock.Tick(s.clock, input.now);
    var moved := input.move(s.position, clock.deltaTime);
    var position := UpdatePosition(moved);
    HorizontalAlwaysClamped(moved);
    RevertIffFinalInsideObstacle(moved);
    var mouse := MouseTracker.Replay(s.mouse, input.cursor);
    FrameOutput(State(position, clock, mouse.0), mouse.1)
  }

  /** The readings of the frames' time source, in order. */
  function Times(inputs: seq<FrameInput>): (ts: seq<real>)
    ensures |ts| == |inputs|
    ensures forall i :: 0 <= i < |inputs| ==> ts[i] == inputs[i].now
    decreases |inputs|
  {
    if |inputs| == 0 then [] else Times(inputs[..|inputs| - 1]) + [inputs[|inputs| - 1].now]
  }

  /** All cursor samples of the frames, in delivery order. */
  function AllCursors(inputs: seq<FrameInput>): seq<MouseTracker.Cursor>
    decreases |inputs|
  {
    if |inputs| == 0 then []
    else AllCursors(inputs[..|inputs| - 1]) + inputs[|inputs| - 1].cursor
  }

  /** The state after playing the frames of `inputs` one after the other. */
  function Play(s: State, inputs: seq<FrameInput>): State
    decreases |inputs|
  {
    if |inputs| == 0 then s
    else Frame(Play(s, inputs[..|inputs| - 1]), inputs[|inputs| - 1]).state
  }

  /** The render loop over a run of frames. */
  method RunFrames(s0: State, inputs: seq<FrameInput>) returns (final: State, offsets: seq<MouseTracker.Offset>)
    requires InRoom(s0.position)
    ensures InRoom(final.position)
    ensures |inputs| == 0 ==> final == s0
    ensures |inputs| > 0 ==> Settled(final.position) || AnyCollision(Obstacles, final.position)
    ensures final.clock == FrameClock.Run(s0.clock, Times(inputs))
    ensures final.mouse == MouseTracker.Replay(s0.mouse, AllCursors(inputs)).0
    ensures offsets == MouseTracker.Replay(s0.mouse, AllCursors(inputs)).1
    ensures final == Play(s0, inputs)
    ensures |inputs| > 0 ==>
              final.position == UpdatePosition(inputs[|inputs| - 1].move(
                Play(s0, inputs[..|inputs| - 1]).position, final.clock.deltaTime))
  {
    final := s0;
    offsets := [];
    var k := 0;
    while k < |inputs|
      invariant 0 <= k <= |inputs|
      invariant InRoom(final.position)
      invariant k == 0 ==> final == s0
      invariant k > 0 ==> Settled(final.position) || AnyCollision(Obstacles, final.position)
      invariant final.clock == FrameClock.Run(s0.clock, Times(inputs[..k]))
      invariant final.mouse == MouseTracker.Replay(s0.mouse, AllCursors(inputs[..k])).0
      invariant offsets == MouseTracker.Replay(s0.mouse, AllCursors(inputs[..k])).1
      invariant final == Play(s0, inputs[..k])
    {
      var out := Frame(final, inputs[k]);
      assert Times(inputs[..k + 1]) == Times(inputs[..k]) + [inputs[k].now];
      FrameClock.RunAppend(s0.clock, Times(inputs[..k]), inputs[k].now);
      assert inputs[..k + 1][..k] == inputs[..k];
      assert AllCursors(inputs[..k + 1]) == AllCursors(inputs[..k]) + inputs[k].cursor;
      MouseTracker.ReplayAppend(s0.mouse, AllCursors(inputs[..k]), inputs[k].cursor);
      final := out.state;
      offsets := offsets + out.looks;
      k := k + 1;
    }
    assert inputs[..k] == inputs;
  }

  /** The start-up position is an accepted one. */
  lemma InitialIsSettled()
    ensures Settled(InitialPosition)
    ensures UpdatePosition(InitialPosition) == InitialPosition
  {
    ObstacleTestUnrolled(InitialPosition);
  }
}
