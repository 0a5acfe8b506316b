/** The fixed room and its five obstacles, and the per-frame correction of the
    camera position: force the eye height, clamp into the room, and revert the
    whole correction when the corrected position falls inside an obstacle. */
module World {
  import opened Geometry

  /** Fixed eye height of the camera. */
  const CameraHeight: real := 1.8

  /** Horizontal room bounds; the `y` component of each corner is world z. */
  const RoomMin: Vec2 := Vec2(-12.0, -12.0)
  const RoomMax: Vec2 := Vec2(12.0, 12.0)

  const Model1Box: AABB := AABB(Vec3(0.0, 0.0, 0.0), Vec3(0.5, 1.0, 0.5))
  const Model2Box: AABB := AABB(Vec3(0.0, 2.0, 0.0), Vec3(0.7, 0.7, 0.7))
  const Model3Box: AABB := AABB(Vec3(2.0, 0.0, -1.5), Vec3(0.04, 0.04, 0.04))
  const Model4Box: AABB := AABB(Vec3(1.0, 0.0, 1.0), Vec3(1.0, 1.0, 1.0))
  const Model5Box: AABB := AABB(Vec3(0.0, 2.0, 0.0), Vec3(1.0, 1.0, 1.0))

  /** The obstacles, in the order the frame loop tests them. */
  const Obstacles: seq<AABB> := [Model1Box, Model2Box, Model3Box, Model4Box, Model5Box]

  function Min(a: real, b: real): real {
    if a < b then a else b
  }

  function Max(a: real, b: real): real {
    if a > b then a else b
  }

  /** The clamp of the vector library: `min(max(v, lo), hi)`. */
  function Clamp(v: real, lo: real, hi: real): (r: real)
    ensures lo <= hi ==> lo <= r <= hi
    ensures lo <= v <= hi ==> r == v
    ensures v < lo && lo <= hi ==> r == lo
    ensures hi < v ==> r == hi
  {
    Min(Max(v, lo), hi)
  }

  /** Clamping twice is clamping once. */
  lemma ClampIdempotent(v: real, lo: real, hi: real)
    requires lo <= hi
    ensures Clamp(Clamp(v, lo, hi), lo, hi) == Clamp(v, lo, hi)
  {
  }

  /** The clamped value is the point of `[lo, hi]` nearest to `v`. */
  lemma ClampIsNearest(v: real, lo: real, hi: real, w: real)
    requires lo <= w <= hi
    ensures Abs(Clamp(v, lo, hi) - v) <= Abs(w - v)
  {
  }

  /** The position lies within the room's horizontal bounds (walls included). */
  predicate InRoom(p: Vec3) {
    RoomMin.x <= p.x <= RoomMax.x && RoomMin.y <= p.z <= RoomMax.y
  }

  /** The correction applied before the obstacle test: the height is forced to
      the eye height, then x and z are clamped into the room independently. */
  function Settle(p: Vec3): (r: Vec3)
    ensures r.y == CameraHeight && InRoom(r)
    ensures RoomMin.x <= p.x <= RoomMax.x ==> r.x == p.x
    ensures RoomMin.y <= p.z <= RoomMax.y ==> r.z == p.z
    ensures p.x < RoomMin.x ==> r.x == RoomMin.x
    ensures RoomMax.x < p.x ==> r.x == RoomMax.x
    ensures p.z < RoomMin.y ==> r.z == RoomMin.y
    ensures RoomMax.y < p.z ==> r.z == RoomMax.y
  {
    var lifted := p.(y := CameraHeight);
    var withX := lifted.(x := Clamp(lifted.x, RoomMin.x, RoomMax.x));
    withX.(z := Clamp(withX.z, RoomMin.y, RoomMax.y))
  }

  /** Settling a settled position changes nothing. */
  lemma SettleIdempotent(p: Vec3)
    ensures Settle(Settle(p)) == Settle(p)
  {
  }

  /** Whether any box of `boxes` reports a collision with `p`, tested left to right. */
  function AnyCollision(boxes: seq<AABB>, p: Vec3): (r: bool)
    ensures r <==> exists i :: 0 <= i < |boxes| && CheckCollision(boxes[i], p)
  {
    if |boxes| == 0 then false
    else if CheckCollision(boxes[0], p) then true
    else
      var rest := AnyCollision(boxes[1..], p);
      assert rest ==> exists i :: 0 <= i < |boxes| && CheckCollision(boxes[i], p) by {
        if rest {
          var j :| 0 <= j < |boxes[1..]| && CheckCollision(boxes[1..][j], p);
          assert boxes[j + 1] == boxes[1..][j];
        }
      }
      assert (exists i :: 0 <= i < |boxes| && CheckCollision(boxes[i], p)) ==> rest by {
        if exists i :: 0 <= i < |boxes| && CheckCollision(boxes[i], p) {
          var i :| 0 <= i < |boxes| && CheckCollision(boxes[i], p);
          assert i != 0;
          assert boxes[1..][i - 1] == boxes[i];
        }
      }
      rest
  }

  /** The any-match is the five-way disjunction of the frame loop. */
  lemma ObstacleTestUnrolled(p: Vec3)
    ensures AnyCollision(Obstacles, p)
        <==> (CheckCollision(Model1Box, p) || CheckCollision(Model2Box, p)
           || CheckCollision(Model3Box, p) || CheckCollision(Model4Box, p)
           || CheckCollision(Model5Box, p))
  {
    if CheckCollision(Model5Box, p) {
      assert CheckCollision(Obstacles[4], p);
    }
    if CheckCollision(Model4Box, p) {
      assert CheckCollision(Obstacles[3], p);
    }
    if CheckCollision(Model3Box, p) {
      assert CheckCollision(Obstacles[2], p);
    }
    if CheckCollision(Model2Box, p) {
      assert CheckCollision(Obstacles[1], p);
    }
  }

  /** The outcome depends only on which boxes are present, not on their order. */
  lemma AnyCollisionPermutation(a: seq<AABB>, b: seq<AABB>, p: Vec3)
    requires multiset(a) == multiset(b)
    ensures AnyCollision(a, p) == AnyCollision(b, p)
  {
    if AnyCollision(a, p) {
      var i :| 0 <= i < |a| && CheckCollision(a[i], p);
      assert a[i] in multiset(b);
      var j :| 0 <= j < |b| && b[j] == a[i];
    }
    if AnyCollision(b, p) {
      var j :| 0 <= j < |b| && CheckCollision(b[j], p);
      assert b[j] in multiset(a);
      var i :| 0 <= i < |a| && a[i] == b[j];
    }
  }

  /** The any-match ignores the height of the position. */
  lemma AnyCollisionIgnoresHeight(boxes: seq<AABB>, p: Vec3, height: real)
    ensures AnyCollision(boxes, p) == AnyCollision(boxes, p.(y := height))
  {
    if AnyCollision(boxes, p) {
      var i :| 0 <= i < |boxes| && CheckCollision(boxes[i], p);
      CollisionIgnoresHeight(boxes[i], p, height);
    }
    if AnyCollision(boxes, p.(y := height)) {
      var i :| 0 <= i < |boxes| && CheckCollision(boxes[i], p.(y := height));
      CollisionIgnoresHeight(boxes[i], p, height);
    }
  }

  /** Every obstacle's footprint lies strictly inside the room. */
  lemma ObstaclesInsideRoom(p: Vec3)
    requires AnyCollision(Obstacles, p)
    ensures RoomMin.x < p.x < RoomMax.x && RoomMin.y < p.z < RoomMax.y
  {
    ObstacleTestUnrolled(p);
  }

  /** One frame's position update. `moved` is the camera position after the
      keyboard input of the frame has been applied; it is also the snapshot the
      frame reverts to. The corrected position is kept unless it lies inside an
      obstacle, in which case the frame ends at `moved`. */
  function UpdatePosition(moved: Vec3): (r: Vec3)
    ensures AnyCollision(Obstacles, Settle(moved)) ==> r == moved
    ensures !AnyCollision(Obstacles, Settle(moved)) ==>
              r.y == CameraHeight && InRoom(r) && !AnyCollision(Obstacles, r)
              && (RoomMin.x <= moved.x <= RoomMax.x ==> r.x == moved.x)
              && (RoomMin.y <= moved.z <= RoomMax.y ==> r.z == moved.z)
  {
    var prevPosition := moved;
    var corrected := Settle(moved);
    if AnyCollision(Obstacles, corrected) then prevPosition else corrected
  }

  /** A reverted frame ends at the post-input position, which is not the
      position before the input: the revert undoes only the height fix and the
      clamp. Whether the final position lies inside an obstacle tells exactly
      whether the frame reverted. */
  lemma RevertIffFinalInsideObstacle(moved: Vec3)
    ensures AnyCollision(Obstacles, UpdatePosition(moved))
        <==> AnyCollision(Obstacles, Settle(moved))
    ensures AnyCollision(Obstacles, UpdatePosition(moved)) ==> UpdatePosition(moved) == moved
  {
    if AnyCollision(Obstacles, Settle(moved)) {
      ObstaclesInsideRoom(Settle(moved));
      assert Settle(moved) == moved.(y := CameraHeight);
      AnyCollisionIgnoresHeight(Obstacles, moved, CameraHeight);
    }
  }

  /** Because every obstacle lies inside the room, the horizontal result of a
      frame is always the clamped post-input position: a collision never holds
      the camera back horizontally, it only leaves the height unfixed. */
  lemma HorizontalAlwaysClamped(moved: Vec3)
    ensures UpdatePosition(moved).x == Clamp(moved.x, RoomMin.x, RoomMax.x)
    ensures UpdatePosition(moved).z == Clamp(moved.z, RoomMin.y, RoomMax.y)
    ensures InRoom(UpdatePosition(moved))
  {
    if AnyCollision(Obstacles, Settle(moved)) {
      ObstaclesInsideRoom(Settle(moved));
    }
  }

  /** Applying the update to its own result changes nothing: a frame without
      input leaves the camera where the previous frame put it. */
  lemma UpdateIdempotent(moved: Vec3)
    ensures UpdatePosition(UpdatePosition(moved)) == UpdatePosition(moved)
  {
    var r := UpdatePosition(moved);
    if AnyCollision(Obstacles, Settle(moved)) {
      assert r == moved;
    } else {
      SettleIdempotent(moved);
      assert Settle(r) == r;
    }
  }

  /** Walking from (11.9, 1.8, 0) by +0.5 along x, with no obstacle there,
      stops at the wall x = 12. */
  lemma WallScenario()
    ensures UpdatePosition(Vec3(12.4, 1.8, 0.0)) == Vec3(12.0, 1.8, 0.0)
  {
    var s := Settle(Vec3(12.4, 1.8, 0.0));
    assert s == Vec3(12.0, 1.8, 0.0);
    ObstacleTestUnrolled(s);
  }

  /** Stepping into obstacle 4 reverts to the post-input position, which is
      itself inside obstacle 4. */
  lemma ObstacleScenario()
    ensures UpdatePosition(Vec3(1.5, 1.7, 1.5)) == Vec3(1.5, 1.7, 1.5)
    ensures AnyCollision(Obstacles, UpdatePosition(Vec3(1.5, 1.7, 1.5)))
  {
    var s := Settle(Vec3(1.5, 1.7, 1.5));
    assert CheckCollision(Obstacles[3], s);
    assert CheckCollision(Obstacles[3], Vec3(1.5, 1.7, 1.5));
  }
}
