/** Vectors, axis-aligned boxes and the point-in-box collision test of the
    walkthrough demo. Coordinates are `real`: the demo only compares, adds and
    subtracts them, so single-precision rounding plays no part in the logic
    modelled here. */
module Geometry {

  /** A 2-component vector; the room bounds use `x` for world x and `y` for world z. */
  datatype Vec2 = Vec2(x: real, y: real)

  /** A 3-component vector (world x, height y, world z). */
  datatype Vec3 = Vec3(x: real, y: real, z: real)

  function Add(a: Vec3, b: Vec3): Vec3 {
    Vec3(a.x + b.x, a.y + b.y, a.z + b.z)
  }

  function Sub(a: Vec3, b: Vec3): Vec3 {
    Vec3(a.x - b.x, a.y - b.y, a.z - b.z)
  }

  function Abs(v: real): real {
    if v < 0.0 then -v else v
  }

  /** A static obstacle: a box given by its centre and half of its size. */
  datatype AABB = AABB(center: Vec3, halfSize: Vec3)

  function MinCorner(box: AABB): Vec3 {
    Sub(box.center, box.halfSize)
  }

  function MaxCorner(box: AABB): Vec3 {
    Add(box.center, box.halfSize)
  }

  /** True when `position` lies strictly inside the box's horizontal (x, z)
      footprint. The height of the position is not looked at, and a position
      on a face of the box is not a collision. */
  function CheckCollision(box: AABB, position: Vec3): (r: bool)
    ensures r <==> (box.center.x - box.halfSize.x < position.x < box.center.x + box.halfSize.x
                 && box.center.z - box.halfSize.z < position.z < box.center.z + box.halfSize.z)
  {
    var lo := MinCorner(box);
    var hi := MaxCorner(box);
    position.x > lo.x && position.x < hi.x && position.z > lo.z && position.z < hi.z
  }

  /** The test does not depend on the height of the position. */
  lemma CollisionIgnoresHeight(box: AABB, position: Vec3, height: real)
    ensures CheckCollision(box, position) == CheckCollision(box, position.(y := height))
  {
  }

  /** A position on any of the four vertical faces of the box is never a collision. */
  lemma FaceIsNotCollision(box: AABB, position: Vec3)
    requires position.x == box.center.x - box.halfSize.x
          || position.x == box.center.x + box.halfSize.x
          || position.z == box.center.z - box.halfSize.z
          || position.z == box.center.z + box.halfSize.z
    ensures !CheckCollision(box, position)
  {
  }

  /** Independent description of the test: the horizontal distance from the
      centre is smaller than the half size on both axes. */
  lemma CollisionByDistance(box: AABB, position: Vec3)
    ensures CheckCollision(box, position)
        <==> (Abs(position.x - box.center.x) < box.halfSize.x
           && Abs(position.z - box.center.z) < box.halfSize.z)
  {
  }

  /** A box that is flat (or inverted) along x or z never reports a collision. */
  lemma FlatBoxNeverCollides(box: AABB, position: Vec3)
    requires box.halfSize.x <= 0.0 || box.halfSize.z <= 0.0
    ensures !CheckCollision(box, position)
  {
  }
}
