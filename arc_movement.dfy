/**
 * The circular movement of arc_movement.go: a mutable record of positions
 * and velocities with a fixed centre offset, turning sense and rotation
 * axis, and the pure queries the planner asks of it.
 */
module Arcs {
  import opened Numerics
  import opened Vectors
  import opened Movements

  /** `getStartDirection`: the centre offset turned a quarter against the sense of the arc. */
  function StartDirection(centerOffset: Vector3d, axis: Axis, clockwise: bool): (r: Vector3d)
    ensures Component(r, axis) == Component(centerOffset, axis)
    ensures Dot(r, r) == Dot(centerOffset, centerOffset)
  {
    RotatePreservesSquaredLength(centerOffset, axis, !clockwise);
    Rotate90(centerOffset, axis, !clockwise)
  }

  /** `getCenter`: the start position displaced by the centre offset. */
  function Center(start: Vector3d, centerOffset: Vector3d): (r: Vector3d)
    ensures Subtract(r, start) == centerOffset
  {
    Add(start, centerOffset)
  }

  /**
   * `getEndDirection`: the unit vector from the centre to the end, turned a
   * quarter with the sense of the arc (Go divides by zero when the end is
   * the centre).
   */
  function EndDirection(o: MathOracle, start: Vector3d, end: Vector3d, centerOffset: Vector3d,
                        axis: Axis, clockwise: bool): (r: Vector3d)
    requires Length(o, Subtract(end, Center(start, centerOffset))) != 0.0
    ensures Lawful(o) ==> r != Origin
  {
    var n := Normalize(o, Subtract(end, Center(start, centerOffset)));
    RotateInverse(n, axis, clockwise);
    Rotate90(n, axis, clockwise)
  }

  /**
   * The divisions the queries of an arc perform are by non-zero numbers:
   * the distance from the centre to the end (normalised in
   * `getEndDirection`) and the product of the two direction lengths (in
   * `AngleWith`).
   */
  predicate Defined(o: MathOracle, start: Vector3d, end: Vector3d, centerOffset: Vector3d,
                    axis: Axis, clockwise: bool) {
    Length(o, Subtract(end, Center(start, centerOffset))) != 0.0
    && Length(o, StartDirection(centerOffset, axis, clockwise))
       * Length(o, EndDirection(o, start, end, centerOffset, axis, clockwise)) != 0.0
  }

  /**
   * `angle`: the angle between the start and end directions, measured the
   * other way round (2 pi minus it) for a clockwise arc.
   */
  function Angle(o: MathOracle, start: Vector3d, end: Vector3d, centerOffset: Vector3d,
                 axis: Axis, clockwise: bool): (r: real)
    requires Defined(o, start, end, centerOffset, axis, clockwise)
    ensures var a := AngleWith(o, StartDirection(centerOffset, axis, clockwise),
                                  EndDirection(o, start, end, centerOffset, axis, clockwise));
      r == (if clockwise then 2.0 * o.pi - a else a)
    ensures Lawful(o) && clockwise ==> o.pi <= r <= 2.0 * o.pi
    ensures Lawful(o) && !clockwise ==> 0.0 <= r <= o.pi
  {
    var angle := AngleWith(o, StartDirection(centerOffset, axis, clockwise),
                              EndDirection(o, start, end, centerOffset, axis, clockwise));
    if clockwise then 2.0 * o.pi - angle else angle
  }

  /** `getLength`: the radius times the swept angle. */
  function ArcLength(o: MathOracle, start: Vector3d, end: Vector3d, centerOffset: Vector3d,
                     axis: Axis, clockwise: bool): (r: real)
    requires Defined(o, start, end, centerOffset, axis, clockwise)
    ensures Lawful(o) ==> 0.0 <= r
  {
    var radius := Length(o, centerOffset);
    var angle := Angle(o, start, end, centerOffset, axis, clockwise);
    ProductNonNegative(radius, angle);
    radius * angle
  }

  /**
   * What `limitVelocity` leaves as the target: the old target lowered in
   * turn to the velocity limit of each axis other than the rotation axis.
   */
  function LimitedTarget(target: real, maxVelocity: Vector3d, axis: Axis): (r: real)
    ensures r <= target
    ensures forall a :: a != axis ==> r <= Component(maxVelocity, a)
    ensures r == target || exists a :: a != axis && r == Component(maxVelocity, a)
  {
    var t := if axis != XAxis && target > maxVelocity.x then maxVelocity.x else target;
    var t := if axis != YAxis && t > maxVelocity.y then maxVelocity.y else t;
    var r := if axis != ZAxis && t > maxVelocity.z then maxVelocity.z else t;
    assert r == target || (axis != XAxis && r == Component(maxVelocity, XAxis))
        || (axis != YAxis && r == Component(maxVelocity, YAxis))
        || (axis != ZAxis && r == Component(maxVelocity, ZAxis));
    r
  }

  /** The smaller of the two acceleration limits in the plane normal to the axis. */
  function InPlaneMin(v: Vector3d, axis: Axis): real {
    match axis
    case XAxis => Min(v.y, v.z)
    case YAxis => Min(v.x, v.z)
    case ZAxis => Min(v.x, v.y)
  }

  /**
   * `getMaxAcceleractionAlongMovement`: a running minimum over the limits
   * of the axes other than the rotation axis, seeded with the largest limit;
   * since the seed bounds both, it is the smaller in-plane limit.
   */
  function MaxAccelerationAlong(maxAcceleration: Vector3d, axis: Axis): (r: real)
    ensures r == InPlaneMin(maxAcceleration, axis)
  {
    var m := Max(maxAcceleration);
    var m := if axis != XAxis && maxAcceleration.x < m then maxAcceleration.x else m;
    var m := if axis != YAxis && maxAcceleration.y < m then maxAcceleration.y else m;
    if axis != ZAxis && maxAcceleration.z < m then maxAcceleration.z else m
  }

  /** Clamping the target a second time changes nothing. */
  lemma LimitIdempotent(target: real, maxVelocity: Vector3d, axis: Axis)
    ensures LimitedTarget(LimitedTarget(target, maxVelocity, axis), maxVelocity, axis)
         == LimitedTarget(target, maxVelocity, axis)
  {
  }

  /** The limit along the rotation axis is never consulted. */
  lemma LimitIgnoresAxisComponent(target: real, v: Vector3d, w: Vector3d, axis: Axis)
    requires forall a :: a != axis ==> Component(v, a) == Component(w, a)
    ensures LimitedTarget(target, v, axis) == LimitedTarget(target, w, axis)
  {
    var r := LimitedTarget(target, v, axis);
    var q := LimitedTarget(target, w, axis);
    if r != target {
      var a :| a != axis && r == Component(v, a);
      assert q <= r;
    }
    if q != target {
      var a :| a != axis && q == Component(w, a);
      assert r <= q;
    }
  }

  class ArcMovement {
    var startPosition: Vector3d
    var endPosition: Vector3d
    var startVelocity: real
    var endVelocity: real
    var targetVelocity: real
    var gcodeVelocity: real
    const clockwise: bool
    const centerOffset: Vector3d
    const axis: Axis

    /** The values the getters of the movement return. */
    function State(): MoveState
      reads this
    {
      MoveState(Circular(centerOffset, clockwise, axis), startPosition, endPosition,
                startVelocity, endVelocity, targetVelocity, gcodeVelocity)
    }

    /**
     * `newArcMovement`: starts at the origin, at rest at the end, with the
     * feed as start, target and G-code velocity, and keeps the geometry.
     */
    constructor(endPosition: Vector3d, centerOffset: Vector3d, gcodeVelocity: real, clockwise: bool, axis: Axis)
      ensures State() == InitialArc(endPosition, centerOffset, gcodeVelocity, clockwise, axis)
    {
      this.startPosition := Origin;
      this.endPosition := endPosition;
      this.startVelocity := gcodeVelocity;
      this.targetVelocity := gcodeVelocity;
      this.gcodeVelocity := gcodeVelocity;
      this.endVelocity := 0.0;
      this.clockwise := clockwise;
      this.centerOffset := centerOffset;
      this.axis := axis;
    }

    method SetStartPosition(p: Vector3d)
      modifies this
      ensures State() == old(State()).(startPosition := p)
    {
      startPosition := p;
    }

    method SetEndPosition(p: Vector3d)
      modifies this
      ensures State() == old(State()).(endPosition := p)
    {
      endPosition := p;
    }

    method SetStartVelocity(v: real)
      modifies this
      ensures State() == old(State()).(startVelocity := v)
    {
      startVelocity := v;
    }

    method SetEndVelocity(v: real)
      modifies this
      ensures State() == old(State()).(endVelocity := v)
    {
      endVelocity := v;
    }

    method SetTargetVelocity(v: real)
      modifies this
      ensures State() == old(State()).(targetVelocity := v)
    {
      targetVelocity := v;
    }

    method SetGcodeVelocity(v: real)
      modifies this
      ensures State() == old(State()).(gcodeVelocity := v)
    {
      gcodeVelocity := v;
    }

    /** `limitVelocity`: lowers the target, axis by axis, to each in-plane velocity limit. */
    method LimitVelocity(maxVelocity: Vector3d)
      modifies this
      ensures State() == old(State()).(targetVelocity := LimitedTarget(old(targetVelocity), maxVelocity, axis))
    {
      if axis != XAxis {
        if targetVelocity > maxVelocity.x {
          targetVelocity := maxVelocity.x;
        }
      }
      if axis != YAxis {
        if targetVelocity > maxVelocity.y {
          targetVelocity := maxVelocity.y;
        }
      }
      if axis != ZAxis {
        if targetVelocity > maxVelocity.z {
          targetVelocity := maxVelocity.z;
        }
      }
    }
  }
}
