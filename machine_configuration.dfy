/**
 * The machine constraint model of machine_configuration.go: an immutable
 * record of per-axis acceleration and velocity limits, the rapid-move
 * velocity and the path deviation tolerance, with the rules that derive
 * scalar limits from it.
 */
module Machine {
  import opened Numerics
  import opened Vectors

  datatype MachineConfiguration = MachineConfiguration(
    maxAcceleration: Vector3d,
    maxVelocity: Vector3d,
    rapidVelocity: real,
    pathDeviationTolerance: real)

  /** `newMachineConfiguration`: stores its four arguments unchanged. */
  function NewMachineConfiguration(maxAcceleration: Vector3d, maxVelocity: Vector3d,
                                   rapidVelocity: real, pathDeviationTolerance: real): (c: MachineConfiguration)
    ensures c.maxAcceleration == maxAcceleration && c.maxVelocity == maxVelocity
    ensures c.rapidVelocity == rapidVelocity && c.pathDeviationTolerance == pathDeviationTolerance
  {
    MachineConfiguration(maxAcceleration, maxVelocity, rapidVelocity, pathDeviationTolerance)
  }

  /**
   * A configuration whose tolerance and per-axis accelerations are strictly
   * positive. The planner needs it where Go divides a positive number by
   * zero and relies on the resulting +Inf.
   */
  predicate Positive(c: MachineConfiguration) {
    && 0.0 < c.pathDeviationTolerance
    && 0.0 < c.maxAcceleration.x && 0.0 < c.maxAcceleration.y && 0.0 < c.maxAcceleration.z
  }

  /** `getMaxVelocity`: the velocity limit vector projected onto a direction. */
  function GetMaxVelocity(o: MathOracle, c: MachineConfiguration, direction: Vector3d): (r: real)
    requires Length(o, direction) != 0.0
    ensures 0.0 <= r
    ensures r == Abs(Dot(c.maxVelocity, direction) / Length(o, direction))
  {
    Projection(o, c.maxVelocity, direction)
  }

  /** `getMaxAcceleraction_scalar`: a running minimum seeded with the X limit. */
  function GetMaxAccelerationScalar(c: MachineConfiguration): (r: real)
    ensures r <= c.maxAcceleration.x && r <= c.maxAcceleration.y && r <= c.maxAcceleration.z
    ensures r == c.maxAcceleration.x || r == c.maxAcceleration.y || r == c.maxAcceleration.z
  {
    var a := c.maxAcceleration;
    var m := a.x;
    var m := if a.y < m then a.y else m;
    if a.z < m then a.z else m
  }

  /** An axis on which either of two directions has a non-zero component. */
  predicate Touched(start: Vector3d, end: Vector3d, axis: Axis) {
    Component(start, axis) != 0.0 || Component(end, axis) != 0.0
  }

  /**
   * `getMaxAcceleractionForTwoVectors`: a running minimum, seeded with the
   * largest limit, over the limits of the axes either direction touches.
   * The result is the least element of the seed and the touched limits.
   */
  function GetMaxAccelerationForTwoVectors(c: MachineConfiguration, start: Vector3d, end: Vector3d): (r: real)
    ensures r <= Max(c.maxAcceleration)
    ensures forall axis :: Touched(start, end, axis) ==> r <= Component(c.maxAcceleration, axis)
    ensures r == Max(c.maxAcceleration)
         || exists axis :: Touched(start, end, axis) && r == Component(c.maxAcceleration, axis)
  {
    var a := c.maxAcceleration;
    var m := Max(a);
    var m := if (start.x != 0.0 || end.x != 0.0) && a.x < m then a.x else m;
    var m := if (start.y != 0.0 || end.y != 0.0) && a.y < m then a.y else m;
    var r := if (start.z != 0.0 || end.z != 0.0) && a.z < m then a.z else m;
    assert Touched(start, end, XAxis) ==> r <= a.x;
    assert Touched(start, end, YAxis) ==> r <= a.y;
    assert Touched(start, end, ZAxis) ==> r <= a.z;
    assert r == Max(a) || (Touched(start, end, XAxis) && r == a.x)
        || (Touched(start, end, YAxis) && r == a.y) || (Touched(start, end, ZAxis) && r == a.z);
    r
  }

  /** `getMaxAcceleraction`: the acceleration limit vector projected onto the start direction. */
  function GetMaxAcceleration(o: MathOracle, c: MachineConfiguration, start: Vector3d, end: Vector3d): (r: real)
    requires Length(o, start) != 0.0
    ensures 0.0 <= r
  {
    Projection(o, c.maxAcceleration, start)
  }

  /** The result of the two-vector rule lies between the global minimum and the largest limit. */
  lemma ForTwoVectorsBetweenScalarAndMax(c: MachineConfiguration, start: Vector3d, end: Vector3d)
    ensures GetMaxAccelerationScalar(c) <= GetMaxAccelerationForTwoVectors(c, start, end) <= Max(c.maxAcceleration)
  {
    var r := GetMaxAccelerationForTwoVectors(c, start, end);
    var s := GetMaxAccelerationScalar(c);
    if r != Max(c.maxAcceleration) {
      var axis :| Touched(start, end, axis) && r == Component(c.maxAcceleration, axis);
      assert s <= Component(c.maxAcceleration, axis);
    }
  }

  /** With no axis touched, the seed, the largest limit, is returned. */
  lemma ForTwoVectorsUntouched(c: MachineConfiguration, start: Vector3d, end: Vector3d)
    requires start == Origin && end == Origin
    ensures GetMaxAccelerationForTwoVectors(c, start, end) == Max(c.maxAcceleration)
  {
    assert !Touched(start, end, XAxis) && !Touched(start, end, YAxis) && !Touched(start, end, ZAxis);
  }

  /** The two-vector rule is symmetric in its two directions. */
  lemma ForTwoVectorsSymmetric(c: MachineConfiguration, start: Vector3d, end: Vector3d)
    ensures GetMaxAccelerationForTwoVectors(c, start, end) == GetMaxAccelerationForTwoVectors(c, end, start)
  {
  }

  /**
   * A limit on an axis neither direction touches does not affect the result,
   * as long as the seed (the largest limit) is the same.
   */
  lemma ForTwoVectorsIgnoresUntouchedAxes(c: MachineConfiguration, d: MachineConfiguration, start: Vector3d, end: Vector3d)
    requires Max(c.maxAcceleration) == Max(d.maxAcceleration)
    requires forall axis :: Touched(start, end, axis) ==> Component(c.maxAcceleration, axis) == Component(d.maxAcceleration, axis)
    ensures GetMaxAccelerationForTwoVectors(c, start, end) == GetMaxAccelerationForTwoVectors(d, start, end)
  {
    var r := GetMaxAccelerationForTwoVectors(c, start, end);
    var q := GetMaxAccelerationForTwoVectors(d, start, end);
    if r != Max(c.maxAcceleration) {
      var axis :| Touched(start, end, axis) && r == Component(c.maxAcceleration, axis);
      assert q <= r;
    }
    if q != Max(d.maxAcceleration) {
      var axis :| Touched(start, end, axis) && q == Component(d.maxAcceleration, axis);
      assert r <= q;
    }
  }

  /** `getMaxAcceleraction` does not read its second direction. */
  lemma GetMaxAccelerationIgnoresEnd(o: MathOracle, c: MachineConfiguration, start: Vector3d, end1: Vector3d, end2: Vector3d)
    requires Length(o, start) != 0.0
    ensures GetMaxAcceleration(o, c, start, end1) == GetMaxAcceleration(o, c, start, end2)
  {
  }
}
