/**
 * The vector primitive of vector3d.go: a value triple with exact
 * addition, subtraction and dot product, a length and a normalisation
 * over the oracle square root, the angle between two vectors over the
 * oracle arc cosine, and the signed component permutation `Rotate90`.
 */
module Vectors {
  import opened Numerics

  /** The three principal axes, in the order of Go's `iota` constants. */
  datatype Axis = XAxis | YAxis | ZAxis

  datatype Vector3d = Vector3d(x: real, y: real, z: real)

  /** The machine's reference position, `Vector3d{X: 0, Y: 0, Z: 0}`. */
  const Origin := Vector3d(0.0, 0.0, 0.0)

  /** The component of `v` along `axis`. */
  function Component(v: Vector3d, axis: Axis): real {
    match axis
    case XAxis => v.x
    case YAxis => v.y
    case ZAxis => v.z
  }

  /** `Add`: the component-wise sum, with the zero vector as its identity. */
  function Add(v: Vector3d, w: Vector3d): (r: Vector3d)
    ensures v == Origin ==> r == w
    ensures w == Origin ==> r == v
  {
    Vector3d(v.x + w.x, v.y + w.y, v.z + w.z)
  }

  function Subtract(v: Vector3d, w: Vector3d): (r: Vector3d)
    ensures Add(r, w) == v
    ensures r == Origin <==> v == w
  {
    Vector3d(v.x - w.x, v.y - w.y, v.z - w.z)
  }

  /** `Dot`: zero when either vector is the zero vector, and never negative for a vector with itself. */
  function Dot(v: Vector3d, w: Vector3d): (r: real)
    ensures w == Origin ==> r == 0.0
  {
    v.x * w.x + v.y * w.y + v.z * w.z
  }

  /** The Euclidean length `sqrt(v . v)`: never negative, and zero for the zero vector. */
  function Length(o: MathOracle, v: Vector3d): (r: real)
    ensures Lawful(o) ==> 0.0 <= r
    ensures Lawful(o) && v == Origin ==> r == 0.0
  {
    o.sqrt(Dot(v, v))
  }

  /**
   * Division of every component by the length. Go divides by zero for a
   * zero-length vector; here the divisor must be non-zero, and then the
   * result is not the zero vector either.
   */
  function Normalize(o: MathOracle, v: Vector3d): (r: Vector3d)
    requires Length(o, v) != 0.0
    ensures Lawful(o) ==> r != Origin
  {
    var l := Length(o, v);
    var r := Vector3d(v.x / l, v.y / l, v.z / l);
    ScaledNonZero(v, l);
    r
  }

  /**
   * `acos(v . w / (|v| |w|))`, without clamping the ratio; the divisor,
   * the product of the two lengths, must be non-zero.
   */
  function AngleWith(o: MathOracle, v: Vector3d, w: Vector3d): (r: real)
    requires Length(o, v) * Length(o, w) != 0.0
    ensures Lawful(o) ==> 0.0 <= r <= o.pi
  {
    o.acos(Dot(v, w) / (Length(o, v) * Length(o, w)))
  }

  /** A quarter turn about `axis`, as a signed permutation of the components. */
  function Rotate90(v: Vector3d, axis: Axis, clockwise: bool): (r: Vector3d)
    ensures Component(r, axis) == Component(v, axis)
  {
    match axis
    case XAxis => if clockwise then Vector3d(v.x, -v.z, v.y) else Vector3d(v.x, v.z, -v.y)
    case YAxis => if clockwise then Vector3d(v.z, v.y, -v.x) else Vector3d(-v.z, v.y, v.x)
    case ZAxis => if clockwise then Vector3d(-v.y, v.x, v.z) else Vector3d(v.y, -v.x, v.z)
  }

  /** The largest of the three components (the `max()` that the callers expect). */
  function Max(v: Vector3d): (r: real)
    ensures v.x <= r && v.y <= r && v.z <= r
    ensures r == v.x || r == v.y || r == v.z
  {
    if v.x >= v.y && v.x >= v.z then v.x
    else if v.y >= v.z then v.y
    else v.z
  }

  /**
   * `|limit . direction / |direction||`: a per-axis limit vector projected
   * onto a direction, as the movements and the configuration compute it.
   */
  function Projection(o: MathOracle, limit: Vector3d, direction: Vector3d): (r: real)
    requires Length(o, direction) != 0.0
    ensures 0.0 <= r
    ensures r == Dot(limit, direction) / Length(o, direction)
         || r == -(Dot(limit, direction) / Length(o, direction))
  {
    Abs(Dot(limit, direction) / Length(o, direction))
  }

  /** A vector with a non-zero component stays non-zero when divided by a non-zero scalar. */
  lemma ScaledNonZero(v: Vector3d, l: real)
    requires l != 0.0
    ensures v != Origin ==> Vector3d(v.x / l, v.y / l, v.z / l) != Origin
  {
    if v.x != 0.0 {
      QuotientNonZero(v.x, l);
    } else if v.y != 0.0 {
      QuotientNonZero(v.y, l);
    } else if v.z != 0.0 {
      QuotientNonZero(v.z, l);
    }
  }

  // ---------------------------------------------------------------------
  // Laws of the quarter turn

  /** Turning back the other way undoes a quarter turn. */
  lemma RotateInverse(v: Vector3d, axis: Axis, clockwise: bool)
    ensures Rotate90(Rotate90(v, axis, clockwise), axis, !clockwise) == v
  {
  }

  /** A quarter turn preserves the squared length. */
  lemma RotatePreservesSquaredLength(v: Vector3d, axis: Axis, clockwise: bool)
    ensures Dot(Rotate90(v, axis, clockwise), Rotate90(v, axis, clockwise)) == Dot(v, v)
  {
  }

  /** A quarter turn of a vector lying in the plane normal to the axis is orthogonal to it. */
  lemma RotateOrthogonal(v: Vector3d, axis: Axis, clockwise: bool)
    requires Component(v, axis) == 0.0
    ensures Dot(v, Rotate90(v, axis, clockwise)) == 0.0
  {
  }

  /** Two quarter turns the same way negate both in-plane components. */
  lemma RotateTwiceNegatesPlane(v: Vector3d, axis: Axis, clockwise: bool)
    ensures var r := Rotate90(Rotate90(v, axis, clockwise), axis, clockwise);
      match axis
      case XAxis => r == Vector3d(v.x, -v.y, -v.z)
      case YAxis => r == Vector3d(-v.x, v.y, -v.z)
      case ZAxis => r == Vector3d(-v.x, -v.y, v.z)
  {
  }

  /** Four quarter turns the same way are the identity. */
  lemma RotatePeriodFour(v: Vector3d, axis: Axis, clockwise: bool)
    ensures Rotate90(Rotate90(Rotate90(Rotate90(v, axis, clockwise), axis, clockwise), axis, clockwise), axis, clockwise) == v
  {
    RotateTwiceNegatesPlane(v, axis, clockwise);
    RotateTwiceNegatesPlane(Rotate90(Rotate90(v, axis, clockwise), axis, clockwise), axis, clockwise);
  }

  /** Subtracting what was added gives back the original vector. */
  lemma AddSubtractCancel(v: Vector3d, w: Vector3d)
    ensures Subtract(Add(v, w), w) == v
  {
  }
}
