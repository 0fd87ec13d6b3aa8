/**
 * Go's `Movement` interface (movement.go) as a tagged reference to one of
 * the two movement classes, with the interface's queries answered from a
 * snapshot of the movement and its setters forwarded to the class.
 */
module Dispatch {
  import opened Numerics
  import opened Vectors
  import opened Movements
  import Linear
  import Arcs

  datatype Movement =
    | LinearMove(line: Linear.LinearMovement)
    | ArcMove(arc: Arcs.ArcMovement)
  {
    /** The object behind the interface value. */
    function Obj(): (r: object)
      ensures r is Linear.LinearMovement || r is Arcs.ArcMovement
    {
      match this
      case LinearMove(l) => l
      case ArcMove(a) => a
    }

    /** The values the interface's getters return. */
    function State(): MoveState
      reads Obj()
    {
      match this
      case LinearMove(l) => l.State()
      case ArcMove(a) => a.State()
    }
  }

  /** The queries of the movement divide only by non-zero numbers. */
  predicate Defined(o: MathOracle, s: MoveState) {
    match s.shape
    case Straight => Linear.Defined(o, s.startPosition, s.endPosition)
    case Circular(c, cw, axis) => Arcs.Defined(o, s.startPosition, s.endPosition, c, axis, cw)
  }

  /**
   * `getStartDirection`: defined for every movement; the zero vector for a
   * straight movement that stays where it is.
   */
  function StartDirection(o: MathOracle, s: MoveState): (r: Vector3d)
    ensures Lawful(o) && s.shape.Straight? && s.startPosition == s.endPosition ==> r == Origin
  {
    match s.shape
    case Straight => Linear.StartDirection(o, s.startPosition, s.endPosition)
    case Circular(c, cw, axis) => Arcs.StartDirection(c, axis, cw)
  }

  /** `getEndDirection`. */
  function EndDirection(o: MathOracle, s: MoveState): (r: Vector3d)
    requires Defined(o, s)
    ensures Lawful(o) ==> r != Origin
  {
    match s.shape
    case Straight => Linear.EndDirection(o, s.startPosition, s.endPosition)
    case Circular(c, cw, axis) => Arcs.EndDirection(o, s.startPosition, s.endPosition, c, axis, cw)
  }

  /** `getLength`. */
  function MoveLength(o: MathOracle, s: MoveState): (r: real)
    requires Defined(o, s)
    ensures Lawful(o) ==> 0.0 <= r
  {
    match s.shape
    case Straight => Linear.MoveLength(o, s.startPosition, s.endPosition)
    case Circular(c, cw, axis) => Arcs.ArcLength(o, s.startPosition, s.endPosition, c, axis, cw)
  }

  /**
   * `getMaxAcceleractionAlongMovement`: never negative for a straight
   * movement; the smaller in-plane limit for an arc, so positive when the
   * limits are.
   */
  function MaxAccelerationAlong(o: MathOracle, s: MoveState, maxAcceleration: Vector3d): (r: real)
    requires Defined(o, s)
    ensures s.shape.Straight? ==> 0.0 <= r
    ensures s.shape.Circular? ==> r == Arcs.InPlaneMin(maxAcceleration, s.shape.axis)
    ensures 0.0 < maxAcceleration.x && 0.0 < maxAcceleration.y && 0.0 < maxAcceleration.z ==> 0.0 <= r
  {
    match s.shape
    case Straight => Linear.MaxAccelerationAlong(o, s.startPosition, s.endPosition, maxAcceleration)
    case Circular(_, _, axis) => Arcs.MaxAccelerationAlong(maxAcceleration, axis)
  }

  /** The target velocity `limitVelocity` leaves: never above the old one. */
  function LimitedTarget(o: MathOracle, s: MoveState, maxVelocity: Vector3d): (r: real)
    requires Defined(o, s)
    ensures r <= s.targetVelocity
  {
    match s.shape
    case Straight => Linear.LimitedTarget(o, s.targetVelocity, maxVelocity, s.startPosition, s.endPosition)
    case Circular(_, _, axis) => Arcs.LimitedTarget(s.targetVelocity, maxVelocity, axis)
  }

  /** The queries of a movement depend only on its geometry, not on its velocities. */
  lemma SameGeometryQueries(o: MathOracle, s: MoveState, t: MoveState, maxAcceleration: Vector3d)
    requires SameGeometry(s, t)
    ensures Defined(o, s) == Defined(o, t)
    ensures StartDirection(o, s) == StartDirection(o, t)
    ensures Defined(o, s) ==> EndDirection(o, s) == EndDirection(o, t)
    ensures Defined(o, s) ==> MoveLength(o, s) == MoveLength(o, t)
    ensures Defined(o, s) ==> MaxAccelerationAlong(o, s, maxAcceleration) == MaxAccelerationAlong(o, t, maxAcceleration)
  {
  }

  method SetStartPosition(m: Movement, p: Vector3d)
    modifies m.Obj()
    ensures m.State() == old(m.State()).(startPosition := p)
  {
    match m
    case LinearMove(l) => l.SetStartPosition(p);
    case ArcMove(a) => a.SetStartPosition(p);
  }

  method SetStartVelocity(m: Movement, v: real)
    modifies m.Obj()
    ensures m.State() == old(m.State()).(startVelocity := v)
  {
    match m
    case LinearMove(l) => l.SetStartVelocity(v);
    case ArcMove(a) => a.SetStartVelocity(v);
  }

  method SetEndVelocity(m: Movement, v: real)
    modifies m.Obj()
    ensures m.State() == old(m.State()).(endVelocity := v)
  {
    match m
    case LinearMove(l) => l.SetEndVelocity(v);
    case ArcMove(a) => a.SetEndVelocity(v);
  }

  method SetTargetVelocity(m: Movement, v: real)
    modifies m.Obj()
    ensures m.State() == old(m.State()).(targetVelocity := v)
  {
    match m
    case LinearMove(l) => l.SetTargetVelocity(v);
    case ArcMove(a) => a.SetTargetVelocity(v);
  }

  method LimitVelocity(o: MathOracle, m: Movement, maxVelocity: Vector3d)
    requires Defined(o, m.State())
    modifies m.Obj()
    ensures m.State() == old(m.State()).(targetVelocity := LimitedTarget(o, old(m.State()), maxVelocity))
  {
    match m
    case LinearMove(l) => l.LimitVelocity(o, maxVelocity);
    case ArcMove(a) => a.LimitVelocity(maxVelocity);
  }

  // ---------------------------------------------------------------------
  // Lists of movements

  /** The objects behind a list of movements. */
  function Footprint(ms: seq<Movement>): set<object> {
    set m | m in ms :: m.Obj()
  }

  /** No object occurs twice in the list. */
  predicate Distinct(ms: seq<Movement>) {
    forall j, k :: 0 <= j < k < |ms| ==> ms[j].Obj() != ms[k].Obj()
  }

  /** The snapshots of a list of movements, in order. */
  function States(ms: seq<Movement>): (r: seq<MoveState>)
    reads Footprint(ms)
    ensures |r| == |ms|
    ensures forall k :: 0 <= k < |ms| ==> r[k] == ms[k].State()
  {
    if ms == [] then [] else States(ms[..|ms| - 1]) + [ms[|ms| - 1].State()]
  }

  /** A place in a list of movements: the list and an index into it. */
  datatype Slot = Slot(ms: seq<Movement>, i: int)

  /**
   * When only the object at one index of a list of distinct movements
   * changes, only that snapshot changes.
   */
  twostate lemma SlotUpdated(p: Slot)
    requires Distinct(p.ms) && 0 <= p.i < |p.ms|
    requires forall k :: 0 <= k < |p.ms| && k != p.i ==> unchanged(p.ms[k].Obj())
    ensures States(p.ms) == old(States(p.ms))[p.i := p.ms[p.i].State()]
  {
    forall k | 0 <= k < |p.ms| && k != p.i
      ensures p.ms[k].State() == old(p.ms[k].State())
    {
    }
  }

  // The setters, applied to the movement at an index of a list of distinct
  // movements: only that snapshot of the list changes.

  method SetStartVelocityAt(ms: seq<Movement>, i: int, v: real)
    requires Distinct(ms) && 0 <= i < |ms|
    modifies ms[i].Obj()
    ensures States(ms) == old(States(ms))[i := old(States(ms))[i].(startVelocity := v)]
  {
    SetStartVelocity(ms[i], v);
    SlotUpdated(Slot(ms, i));
  }

  method SetEndVelocityAt(ms: seq<Movement>, i: int, v: real)
    requires Distinct(ms) && 0 <= i < |ms|
    modifies ms[i].Obj()
    ensures States(ms) == old(States(ms))[i := old(States(ms))[i].(endVelocity := v)]
  {
    SetEndVelocity(ms[i], v);
    SlotUpdated(Slot(ms, i));
  }

  method SetTargetVelocityAt(ms: seq<Movement>, i: int, v: real)
    requires Distinct(ms) && 0 <= i < |ms|
    modifies ms[i].Obj()
    ensures States(ms) == old(States(ms))[i := old(States(ms))[i].(targetVelocity := v)]
  {
    SetTargetVelocity(ms[i], v);
    SlotUpdated(Slot(ms, i));
  }

  method LimitVelocityAt(o: MathOracle, ms: seq<Movement>, i: int, maxVelocity: Vector3d)
    requires Distinct(ms) && 0 <= i < |ms| && Defined(o, States(ms)[i])
    modifies ms[i].Obj()
    ensures States(ms) == old(States(ms))[i := old(States(ms))[i].(targetVelocity := LimitedTarget(o, old(States(ms))[i], maxVelocity))]
  {
    LimitVelocity(o, ms[i], maxVelocity);
    SlotUpdated(Slot(ms, i));
  }
}
