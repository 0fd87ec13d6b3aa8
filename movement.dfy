/**
 * The value view of a movement: what the getters of Go's `Movement`
 * interface (movement.go) return, gathered in one snapshot. The two
 * movement classes expose their fields through `State()`, and the planner
 * is specified on sequences of these snapshots.
 */
module Movements {
  import opened Vectors

  /** The geometry that distinguishes the two kinds of movement. */
  datatype Shape =
    | Straight
    | Circular(centerOffset: Vector3d, clockwise: bool, axis: Axis)

  datatype MoveState = MoveState(
    shape: Shape,
    startPosition: Vector3d,
    endPosition: Vector3d,
    startVelocity: real,
    endVelocity: real,
    targetVelocity: real,
    gcodeVelocity: real)

  /**
   * The state `newLinearMovement` creates: at the origin, moving to `end`,
   * with the feed as start, target and G-code velocity and an end velocity of 0.
   */
  function InitialLinear(end: Vector3d, feed: real): MoveState {
    MoveState(Straight, Origin, end, feed, 0.0, feed, feed)
  }

  /** The state `newArcMovement` creates: as for a line, with the arc's geometry. */
  function InitialArc(end: Vector3d, centerOffset: Vector3d, feed: real, clockwise: bool, axis: Axis): MoveState {
    MoveState(Circular(centerOffset, clockwise, axis), Origin, end, feed, 0.0, feed, feed)
  }

  /** Two snapshots that agree on everything except, possibly, the three planned velocities. */
  predicate SameGeometry(s: MoveState, t: MoveState) {
    s.shape == t.shape && s.startPosition == t.startPosition && s.endPosition == t.endPosition
    && s.gcodeVelocity == t.gcodeVelocity
  }
}
