/**
 * The straight-line movement of linear_movement.go: a mutable record of
 * positions and velocities, and the pure queries the planner asks of it.
 */
module Linear {
  import opened Numerics
  import opened Vectors
  import opened Movements

  /**
   * `getStartDirection`: the unit direction from start to end, guarded so
   * that a movement of zero length has the zero vector as its direction.
   */
  function StartDirection(o: MathOracle, start: Vector3d, end: Vector3d): (r: Vector3d)
    ensures Lawful(o) ==> (r == Origin <==> Length(o, Subtract(end, start)) == 0.0)
    ensures Lawful(o) && start == end ==> r == Origin
  {
    var d := Subtract(end, start);
    if Length(o, d) == 0.0 then Origin else Normalize(o, d)
  }

  /** `getEndDirection`: the unit direction from end back to start (Go divides by zero when they coincide). */
  function EndDirection(o: MathOracle, start: Vector3d, end: Vector3d): (r: Vector3d)
    requires Length(o, Subtract(start, end)) != 0.0
    ensures Lawful(o) ==> r != Origin
  {
    Normalize(o, Subtract(start, end))
  }

  /** `getLength`: the distance between the two positions. */
  function MoveLength(o: MathOracle, start: Vector3d, end: Vector3d): (r: real)
    ensures Lawful(o) ==> 0.0 <= r
    ensures Lawful(o) && start == end ==> r == 0.0
  {
    Length(o, Subtract(end, start))
  }

  /**
   * The divisions the queries of a straight movement perform are by
   * non-zero numbers: the length of the start direction (in the
   * projections) and the length of `start - end` (in `getEndDirection`).
   */
  predicate Defined(o: MathOracle, start: Vector3d, end: Vector3d) {
    Length(o, StartDirection(o, start, end)) != 0.0 && Length(o, Subtract(start, end)) != 0.0
  }

  /** What `limitVelocity` leaves as the target: the old target clamped to the projected limit. */
  function LimitedTarget(o: MathOracle, target: real, maxVelocity: Vector3d, start: Vector3d, end: Vector3d): (r: real)
    requires Length(o, StartDirection(o, start, end)) != 0.0
    ensures r <= target
    ensures r <= Projection(o, maxVelocity, StartDirection(o, start, end))
    ensures target <= Projection(o, maxVelocity, StartDirection(o, start, end)) ==> r == target
    ensures r == target || r == Projection(o, maxVelocity, StartDirection(o, start, end))
  {
    Min(target, Projection(o, maxVelocity, StartDirection(o, start, end)))
  }

  /** `getMaxAcceleractionAlongMovement`: the acceleration limits projected onto the start direction. */
  function MaxAccelerationAlong(o: MathOracle, start: Vector3d, end: Vector3d, maxAcceleration: Vector3d): (r: real)
    requires Length(o, StartDirection(o, start, end)) != 0.0
    ensures 0.0 <= r
  {
    Projection(o, maxAcceleration, StartDirection(o, start, end))
  }

  /** The length of a movement does not depend on its orientation. */
  lemma MoveLengthSymmetric(o: MathOracle, start: Vector3d, end: Vector3d)
    ensures MoveLength(o, start, end) == MoveLength(o, end, start)
  {
    assert Dot(Subtract(end, start), Subtract(end, start)) == Dot(Subtract(start, end), Subtract(start, end));
  }

  /** A movement whose queries are defined has distinct end points. */
  lemma DefinedMovesSomewhere(o: MathOracle, start: Vector3d, end: Vector3d)
    requires Lawful(o) && Defined(o, start, end)
    ensures start != end
  {
  }

  /** Clamping the target a second time changes nothing. */
  lemma LimitIdempotent(o: MathOracle, target: real, maxVelocity: Vector3d, start: Vector3d, end: Vector3d)
    requires Length(o, StartDirection(o, start, end)) != 0.0
    ensures LimitedTarget(o, LimitedTarget(o, target, maxVelocity, start, end), maxVelocity, start, end)
         == LimitedTarget(o, target, maxVelocity, start, end)
  {
  }

  class LinearMovement {
    var startPosition: Vector3d
    var endPosition: Vector3d
    var startVelocity: real
    var endVelocity: real
    var targetVelocity: real
    var gcodeVelocity: real

    /** The values the getters of the movement return. */
    function State(): MoveState
      reads this
    {
      MoveState(Straight, startPosition, endPosition, startVelocity, endVelocity, targetVelocity, gcodeVelocity)
    }

    /** `newLinearMovement`: starts at the origin, at rest at the end, with the feed as start, target and G-code velocity. */
    constructor(endPosition: Vector3d, gcodeVelocity: real)
      ensures State() == InitialLinear(endPosition, gcodeVelocity)
    {
      this.startPosition := Origin;
      this.endPosition := endPosition;
      this.startVelocity := gcodeVelocity;
      this.targetVelocity := gcodeVelocity;
      this.gcodeVelocity := gcodeVelocity;
      this.endVelocity := 0.0;
    }

    method SetStartPosition(p: Vector3d)
      modifies this
      ensures State() == old(State()).(startPosition := p)
    {
      startPosition := p;
    }

    method SetEndPosition(p: Vector3d)
      modifies this
      ensures State() == old(State()).(endPosition := p)
    {
      endPosition := p;
    }

    method SetStartVelocity(v: real)
      modifies this
      ensures State() == old(State()).(startVelocity := v)
    {
      startVelocity := v;
    }

    method SetEndVelocity(v: real)
      modifies this
      ensures State() == old(State()).(endVelocity := v)
    {
      endVelocity := v;
    }

    method SetTargetVelocity(v: real)
      modifies this
      ensures State() == old(State()).(targetVelocity := v)
    {
      targetVelocity := v;
    }

    method SetGcodeVelocity(v: real)
      modifies this
      ensures State() == old(State()).(gcodeVelocity := v)
    {
      gcodeVelocity := v;
    }

    /** `limitVelocity`: lowers the target to the velocity limit projected onto the direction of travel. */
    method LimitVelocity(o: MathOracle, maxVelocity: Vector3d)
      requires Length(o, StartDirection(o, startPosition, endPosition)) != 0.0
      modifies this
      ensures State() == old(State()).(targetVelocity :=
        LimitedTarget(o, old(targetVelocity), maxVelocity, old(startPosition), old(endPosition)))
    {
      var direction := StartDirection(o, startPosition, endPosition);
      var maxVelocityAlongDirection := Abs(Dot(maxVelocity, direction) / Length(o, direction));
      if targetVelocity > maxVelocityAlongDirection {
        targetVelocity := maxVelocityAlongDirection;
      }
    }
  }
}
