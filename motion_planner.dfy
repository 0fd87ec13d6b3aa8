/**
 * The motion planner of motion_planner.go: the cornering, junction and
 * reachable-velocity rules, one step of the velocity walk of `run`, the
 * walk itself (bounded by fuel), the feed-rate profile, and the class
 * that fills a command list from parsed G-code and plans it in place.
 */
module Planner {
  import opened Numerics
  import opened Vectors
  import opened Machine
  import opened Movements
  import opened Dispatch
  import opened Commands
  import opened Wrappers
  import Linear
  import Arcs

  /** A radius or velocity that may be +Inf, which Go reaches by dividing a positive number by zero. */
  datatype Bound = Bounded(value: real) | Unbounded

  /** `math.Min(x, b)`, where an unbounded `b` never wins. */
  function MinBound(x: real, b: Bound): (r: real)
    ensures r <= x && (b.Bounded? ==> r <= b.value)
    ensures r == x || (b.Bounded? && r == b.value)
  {
    match b
    case Unbounded => x
    case Bounded(v) => Min(x, v)
  }

  /**
   * `calculateRadius`: tolerance * sin(angle/2) / (1 - sin(angle/2)); it is
   * unbounded exactly when sin(angle/2) is 1, and non-negative whenever the
   * sine lies in [0, 1).
   */
  function CalculateRadius(o: MathOracle, c: MachineConfiguration, angle: real): (r: Bound)
    requires 0.0 < c.pathDeviationTolerance
    ensures r.Unbounded? <==> o.sin(angle / 2.0) == 1.0
    ensures 0.0 <= o.sin(angle / 2.0) < 1.0 ==> r.Bounded? && 0.0 <= r.value
  {
    var s := o.sin(angle / 2.0);
    if 1.0 - s == 0.0 then Unbounded
    else
      ProductNonNegative(c.pathDeviationTolerance, s);
      QuotientNonNegative(c.pathDeviationTolerance * s, 1.0 - s);
      Bounded(c.pathDeviationTolerance * s / (1.0 - s))
  }

  /**
   * The two directions at a corner are usable: the end direction of the
   * first movement and the start direction of the second have non-zero length.
   */
  predicate HasCorner(o: MathOracle, s1: MoveState, s2: MoveState)
    requires Defined(o, s1)
  {
    Length(o, EndDirection(o, s1)) != 0.0 && Length(o, StartDirection(o, s2)) != 0.0
  }

  /** The angle of a corner, between the backward end direction and the forward start direction. */
  function CornerAngle(o: MathOracle, s1: MoveState, s2: MoveState): (r: real)
    requires Defined(o, s1) && HasCorner(o, s1, s2)
    ensures Lawful(o) ==> 0.0 <= r <= o.pi
  {
    ProductNonZero(Length(o, EndDirection(o, s1)), Length(o, StartDirection(o, s2)));
    AngleWith(o, EndDirection(o, s1), StartDirection(o, s2))
  }

  /** A corner the path passes straight through: its angle is pi in the sense of sin(angle/2) == 1. */
  predicate StraightThrough(o: MathOracle, s1: MoveState, s2: MoveState)
    requires Defined(o, s1)
  {
    HasCorner(o, s1, s2) && o.sin(CornerAngle(o, s1, s2) / 2.0) == 1.0
  }

  /**
   * `getMaxCornerVelocity`: 0 when either direction has zero length;
   * otherwise sqrt(acceleration * radius), unbounded exactly when the path
   * goes straight through the corner; never negative.
   */
  function GetMaxCornerVelocity(o: MathOracle, c: MachineConfiguration, s1: MoveState, s2: MoveState): (r: Bound)
    requires Positive(c) && Defined(o, s1)
    ensures !HasCorner(o, s1, s2) ==> r == Bounded(0.0)
    ensures r.Unbounded? <==> StraightThrough(o, s1, s2)
    ensures Lawful(o) && r.Bounded? ==> 0.0 <= r.value
  {
    if !HasCorner(o, s1, s2) then Bounded(0.0)
    else
      var v1 := EndDirection(o, s1);
      var v2 := StartDirection(o, s2);
      var acceleration := GetMaxAccelerationForTwoVectors(c, v1, v2);
      match CalculateRadius(o, c, CornerAngle(o, s1, s2))
      case Unbounded => Unbounded
      case Bounded(radius) => Bounded(o.sqrt(acceleration * radius))
  }

  /**
   * `calculateJunctionVelocity`: the smallest of the movement's target and
   * end velocities, the next movement's start velocity and the cornering
   * velocity.
   */
  function JunctionVelocity(o: MathOracle, c: MachineConfiguration, s: MoveState, next: MoveState): (r: real)
    requires Positive(c) && Defined(o, s)
    ensures r <= s.targetVelocity && r <= next.startVelocity && r <= s.endVelocity
    ensures var corner := GetMaxCornerVelocity(o, c, s, next);
      && (corner.Bounded? ==> r <= corner.value)
      && (r == s.targetVelocity || r == next.startVelocity || r == s.endVelocity
          || (corner.Bounded? && r == corner.value))
  {
    var j := Min(s.targetVelocity, next.startVelocity);
    var j := MinBound(j, GetMaxCornerVelocity(o, c, s, next));
    Min(j, s.endVelocity)
  }

  /**
   * A straight next movement that stays where it is (as the parser makes
   * for a feed-only line such as `G1 F500`) has no start direction, so the
   * machine must stop at the junction before it.
   */
  lemma {:induction false} NoCornerStops(o: MathOracle, c: MachineConfiguration, s: MoveState, next: MoveState)
    requires Lawful(o) && Positive(c) && Defined(o, s)
    requires next.shape.Straight? && next.startPosition == next.endPosition
    ensures GetMaxCornerVelocity(o, c, s, next) == Bounded(0.0)
    ensures JunctionVelocity(o, c, s, next) <= 0.0
  {
    StandingStill(o, next);
    NoStartNoCorner(o, s, next);
  }

  /** Proof aid: without a start direction there is no corner. */
  lemma NoStartNoCorner(o: MathOracle, s: MoveState, next: MoveState)
    requires Defined(o, s) && Length(o, StartDirection(o, next)) == 0.0
    ensures !HasCorner(o, s, next)
  {
  }

  /** Proof aid: a straight movement that stays where it is has a start direction of length 0. */
  lemma StandingStill(o: MathOracle, next: MoveState)
    requires Lawful(o) && next.shape.Straight? && next.startPosition == next.endPosition
    ensures Length(o, StartDirection(o, next)) == 0.0
  {
  }

  /**
   * The velocity reachable from `v` over `distance` at `acceleration`, by
   * the relation sqrt(v^2 + a*d) that both `calculateMaxEndVelocity` and
   * `calculateMaxStartVelocity` use (without the factor 2 of the textbook
   * v^2 = v0^2 + 2ad).
   */
  function Reachable(o: MathOracle, v: real, acceleration: real, distance: real): (r: real)
    ensures Lawful(o) ==> 0.0 <= r
  {
    o.sqrt(o.pow(v, 2.0) + acceleration * distance)
  }

  /** `calculateMaxEndVelocity`: the velocity reachable from the start velocity over the movement. */
  function MaxEndVelocity(o: MathOracle, c: MachineConfiguration, s: MoveState): (r: real)
    requires Defined(o, s)
    ensures Lawful(o) ==> 0.0 <= r
  {
    Reachable(o, s.startVelocity, MaxAccelerationAlong(o, s, c.maxAcceleration), MoveLength(o, s))
  }

  /** `calculateMaxStartVelocity`: the velocity from which the junction velocity is reachable over the movement. */
  function MaxStartVelocity(o: MathOracle, c: MachineConfiguration, s: MoveState, junction: real): (r: real)
    requires Defined(o, s)
    ensures Lawful(o) ==> 0.0 <= r
  {
    Reachable(o, junction, MaxAccelerationAlong(o, s, c.maxAcceleration), MoveLength(o, s))
  }

  /** The end and start rules are the same relation, read in the two directions of the movement. */
  lemma EndAndStartAgree(o: MathOracle, c: MachineConfiguration, s: MoveState, t: MoveState, v: real)
    requires Defined(o, s) && SameGeometry(s, t)
    ensures MaxEndVelocity(o, c, s.(startVelocity := v)) == MaxStartVelocity(o, c, t, v)
  {
    SameGeometryQueries(o, s, t, c.maxAcceleration);
    SameGeometryQueries(o, s, s.(startVelocity := v), c.maxAcceleration);
  }

  // ---------------------------------------------------------------------
  // The velocity walk of `run`

  /** Every movement of the list answers its queries without dividing by zero. */
  predicate AllDefined(o: MathOracle, s: seq<MoveState>) {
    forall k :: 0 <= k < |s| ==> Defined(o, s[k])
  }

  /** Two lists of snapshots that differ at most in the planned velocities. */
  predicate SameGeometries(s: seq<MoveState>, t: seq<MoveState>) {
    |s| == |t| && forall k :: 0 <= k < |s| ==> SameGeometry(s[k], t[k])
  }

  /** Lists with the same geometry are defined alike. */
  lemma SameGeometriesDefined(o: MathOracle, s: seq<MoveState>, t: seq<MoveState>)
    requires SameGeometries(s, t) && AllDefined(o, s)
    ensures AllDefined(o, t)
  {
    forall k | 0 <= k < |t|
      ensures Defined(o, t[k])
    {
      SameGeometryQueries(o, s[k], t[k], Origin);
    }
  }

  /**
   * Lines 164-168 of `run`: the movement after `limitVelocity` and after its
   * end velocity is set to the velocity reachable from its start.
   */
  function Prepared(o: MathOracle, c: MachineConfiguration, s: MoveState): (r: MoveState)
    requires Defined(o, s)
    ensures SameGeometry(r, s) && Defined(o, r)
    ensures r.startVelocity == s.startVelocity
    ensures r.targetVelocity == LimitedTarget(o, s, c.maxVelocity)
    ensures r.endVelocity == MaxEndVelocity(o, c, s)
  {
    var t := s.(targetVelocity := LimitedTarget(o, s, c.maxVelocity));
    SameGeometryQueries(o, s, t, c.maxAcceleration);
    t.(endVelocity := MaxEndVelocity(o, c, t))
  }

  /**
   * A movement whose velocities fit its acceleration limit: the end is
   * reachable from the start, and the start is reachable backwards from the end.
   */
  predicate Reachability(o: MathOracle, c: MachineConfiguration, t: MoveState)
    requires Defined(o, t)
  {
    t.endVelocity <= MaxEndVelocity(o, c, t) && t.startVelocity <= MaxStartVelocity(o, c, t, t.endVelocity)
  }

  /**
   * The first `n` junctions are planned: each movement ends at the velocity
   * its successor starts with, within its limits.
   */
  predicate Joined(o: MathOracle, c: MachineConfiguration, s: seq<MoveState>, n: int)
    requires AllDefined(o, s)
  {
    forall k :: 0 <= k < n && k + 1 < |s| ==>
      s[k].endVelocity == s[k + 1].startVelocity && Reachability(o, c, s[k])
  }

  /** The first `n` movements end no faster than their target. */
  predicate WithinTarget(s: seq<MoveState>, n: int) {
    forall k :: 0 <= k < n && k < |s| ==> s[k].endVelocity <= s[k].targetVelocity
  }

  /** The position of the walk: the snapshots of the list and the index `i`. */
  datatype Walk = Walk(states: seq<MoveState>, index: int)

  /**
   * Whether the step at `i` corrects (line 179): the start velocity from which
   * the junction is reachable is below the movement's start velocity.
   */
  predicate Corrects(o: MathOracle, c: MachineConfiguration, s: seq<MoveState>, i: int)
    requires Positive(c) && AllDefined(o, s) && 0 <= i < |s| - 1
  {
    var p := Prepared(o, c, s[i]);
    MaxStartVelocity(o, c, p, JunctionVelocity(o, c, p, s[i + 1])) < p.startVelocity
  }

  /**
   * The correcting branch (lines 179-183): movement `i` keeps what lines
   * 164-168 gave it, except that its start velocity drops to the one from
   * which the junction is reachable.
   */
  function Correction(o: MathOracle, c: MachineConfiguration, s: seq<MoveState>, i: int): (r: seq<MoveState>)
    requires Positive(c) && AllDefined(o, s) && 0 <= i < |s| - 1 && Corrects(o, c, s, i)
    ensures SameGeometries(r, s)
    ensures forall k :: 0 <= k < |s| && k != i ==> r[k] == s[k]
    ensures r[i].startVelocity < s[i].startVelocity && r[i].targetVelocity == LimitedTarget(o, s[i], c.maxVelocity)
    ensures r[i].endVelocity == MaxEndVelocity(o, c, s[i])
  {
    var p := Prepared(o, c, s[i]);
    s[i := p.(startVelocity := MaxStartVelocity(o, c, p, JunctionVelocity(o, c, p, s[i + 1])))]
  }

  /**
   * The committing branch (lines 184-188): movement `i` ends and movement
   * `i + 1` starts at the junction velocity, which fits the limits of movement `i`.
   */
  function Commit(o: MathOracle, c: MachineConfiguration, s: seq<MoveState>, i: int): (r: seq<MoveState>)
    requires Positive(c) && AllDefined(o, s) && 0 <= i < |s| - 1 && !Corrects(o, c, s, i)
    ensures SameGeometries(r, s) && AllDefined(o, r)
    ensures forall k :: 0 <= k < |s| && k != i && k != i + 1 ==> r[k] == s[k]
    ensures r[i].startVelocity == s[i].startVelocity && r[i].targetVelocity == LimitedTarget(o, s[i], c.maxVelocity)
    ensures r[i + 1].startVelocity <= s[i + 1].startVelocity && r[i + 1].targetVelocity == s[i + 1].targetVelocity
    ensures r[i].endVelocity == r[i + 1].startVelocity
    ensures r[i].endVelocity <= r[i].targetVelocity && Reachability(o, c, r[i])
  {
    var p := Prepared(o, c, s[i]);
    var junction := JunctionVelocity(o, c, p, s[i + 1]);
    var t := p.(endVelocity := junction);
    var u := s[i + 1].(startVelocity := junction);
    JunctionFits(o, c, s, i, p, junction);
    SameGeometryQueries(o, s[i + 1], u, c.maxAcceleration);
    ReplacePair(s, i, t, u);
    SameGeometriesDefined(o, s, s[i := t][i + 1 := u]);
    s[i := t][i + 1 := u]
  }

  /** Proof aid: replacing two neighbours by movements of the same geometry keeps the geometry of the list. */
  lemma ReplacePair(s: seq<MoveState>, i: int, t: MoveState, u: MoveState)
    requires 0 <= i < |s| - 1 && SameGeometry(t, s[i]) && SameGeometry(u, s[i + 1])
    ensures var r := s[i := t][i + 1 := u];
      && r[i] == t && r[i + 1] == u && SameGeometries(r, s) && SameGeometries(s, r)
      && forall k :: 0 <= k < |s| && k != i && k != i + 1 ==> r[k] == s[k]
  {
  }

  /** Proof aid: without a correction, movement `i` ending at the junction velocity fits its limits. */
  lemma JunctionFits(o: MathOracle, c: MachineConfiguration, s: seq<MoveState>, i: int, p: MoveState, junction: real)
    requires Positive(c) && AllDefined(o, s) && 0 <= i < |s| - 1 && !Corrects(o, c, s, i)
    requires p == Prepared(o, c, s[i]) && junction == JunctionVelocity(o, c, p, s[i + 1])
    ensures SameGeometry(p.(endVelocity := junction), s[i]) && Defined(o, p.(endVelocity := junction))
    ensures junction <= p.targetVelocity && Reachability(o, c, p.(endVelocity := junction))
  {
    SameGeometryQueries(o, p, p.(endVelocity := junction), c.maxAcceleration);
  }

  /**
   * One iteration of the loop of `run` at index `i` (lines 161-188). It
   * touches only movements `i` and `i + 1`, changes no geometry and never
   * raises a start or target velocity; a correction steps back and a commit
   * steps forward. A movement that starts at rest is never corrected.
   */
  function Step(o: MathOracle, c: MachineConfiguration, s: seq<MoveState>, i: int): (r: Walk)
    requires Positive(c) && AllDefined(o, s) && 0 <= i < |s| - 1
    ensures SameGeometries(r.states, s) && AllDefined(o, r.states)
    ensures forall k :: 0 <= k < |s| && k != i && k != i + 1 ==> r.states[k] == s[k]
    ensures forall k :: 0 <= k < |s| ==>
      r.states[k].startVelocity <= s[k].startVelocity && r.states[k].targetVelocity <= s[k].targetVelocity
    ensures r.index == (if Corrects(o, c, s, i) then i - 1 else i + 1)
    ensures Lawful(o) && s[i].startVelocity <= 0.0 ==> !Corrects(o, c, s, i)
  {
    if Corrects(o, c, s, i) then
      var r := Correction(o, c, s, i);
      SameGeometriesDefined(o, s, r);
      Walk(r, i - 1)
    else
      Walk(Commit(o, c, s, i), i + 1)
  }

  /**
   * The two outcomes of a step, spelled out on the prepared movement `p`,
   * the junction velocity and the start velocity from which it is reachable.
   */
  lemma StepOutcome(o: MathOracle, c: MachineConfiguration, s: seq<MoveState>, i: int,
                    p: MoveState, junction: real, start: real)
    requires Positive(c) && AllDefined(o, s) && 0 <= i < |s| - 1
    requires p == Prepared(o, c, s[i])
    requires junction == JunctionVelocity(o, c, p, s[i + 1]) && start == MaxStartVelocity(o, c, p, junction)
    ensures start < p.startVelocity ==> Step(o, c, s, i) == Walk(s[i := p.(startVelocity := start)], i - 1)
    ensures start >= p.startVelocity ==>
      Step(o, c, s, i) == Walk(s[i := p.(endVelocity := junction)][i + 1 := s[i + 1].(startVelocity := junction)], i + 1)
  {
  }

  /** Proof aid (sequence algebra, no counterpart in the Go code): writing an index twice keeps the second value. */
  lemma UpdateTwice<T>(s: seq<T>, i: int, a: T, b: T)
    requires 0 <= i < |s|
    ensures s[i := a][i := b] == s[i := b]
  {
  }

  /** A step extends the planned prefix up to the new index. */
  lemma StepKeepsJoined(o: MathOracle, c: MachineConfiguration, s: seq<MoveState>, i: int)
    requires Positive(c) && AllDefined(o, s) && 0 <= i < |s| - 1
    ensures Joined(o, c, s, i) && WithinTarget(s, i) ==>
      Joined(o, c, Step(o, c, s, i).states, Step(o, c, s, i).index)
      && WithinTarget(Step(o, c, s, i).states, Step(o, c, s, i).index)
  {
    var r := Step(o, c, s, i);
    if Joined(o, c, s, i) && WithinTarget(s, i) {
      if Corrects(o, c, s, i) {
        assert r.states == Correction(o, c, s, i);
      } else {
        assert r.states == Commit(o, c, s, i);
      }
      forall k | 0 <= k < r.index && k + 1 < |s|
        ensures r.states[k].endVelocity == r.states[k + 1].startVelocity && Reachability(o, c, r.states[k])
        ensures r.states[k].endVelocity <= r.states[k].targetVelocity
      {
        if k < i {
          assert r.states[k] == s[k];
        }
      }
    }
  }

  /**
   * The loop of `run` from index `i`, for at most `fuel` iterations. With
   * the first start velocity pinned to 0 the index never leaves the list,
   * the first movement stays at rest, geometry is kept, no start or target
   * velocity rises, and the junctions behind the index stay planned.
   */
  function VelocityPass(o: MathOracle, c: MachineConfiguration, s: seq<MoveState>, i: int, fuel: nat): (r: Walk)
    requires Lawful(o) && Positive(c) && AllDefined(o, s)
    requires 0 <= i <= |s| - 1 && s[0].startVelocity == 0.0
    decreases fuel
    ensures SameGeometries(r.states, s) && AllDefined(o, r.states)
    ensures 0 <= r.index <= |s| - 1
    ensures r.states[0].startVelocity == 0.0
    ensures forall k :: 0 <= k < |s| ==>
      r.states[k].startVelocity <= s[k].startVelocity && r.states[k].targetVelocity <= s[k].targetVelocity
    ensures Joined(o, c, s, i) && WithinTarget(s, i) ==>
      Joined(o, c, r.states, r.index) && WithinTarget(r.states, r.index)
  {
    if fuel == 0 || i == |s| - 1 then Walk(s, i)
    else
      var t := Step(o, c, s, i);
      StepKeepsJoined(o, c, s, i);
      VelocityPass(o, c, t.states, t.index, fuel - 1)
  }

  /** One turn of the loop of `run`: the walk continues from the step it takes, within the list. */
  lemma PassStep(o: MathOracle, c: MachineConfiguration, s: seq<MoveState>, i: int, fuel: nat)
    requires Lawful(o) && Positive(c) && AllDefined(o, s)
    requires 0 <= i < |s| - 1 && s[0].startVelocity == 0.0 && fuel > 0
    ensures var t := Step(o, c, s, i);
      && 0 <= t.index <= |s| - 1 && t.states[0].startVelocity == 0.0 && AllDefined(o, t.states)
      && VelocityPass(o, c, t.states, t.index, fuel - 1) == VelocityPass(o, c, s, i, fuel)
  {
  }

  /** Proof aid (no counterpart in the Go code): the walk depends on its fuel only through its value. */
  lemma SameFuel(o: MathOracle, c: MachineConfiguration, s: seq<MoveState>, i: int, a: nat, b: nat)
    requires Lawful(o) && Positive(c) && AllDefined(o, s)
    requires 0 <= i <= |s| - 1 && s[0].startVelocity == 0.0 && a == b
    ensures VelocityPass(o, c, s, i, a) == VelocityPass(o, c, s, i, b)
  {
  }

  // ---------------------------------------------------------------------
  // The feed-rate profile

  /** The profile divides by twice the movement's acceleration limit, which must not be zero. */
  predicate Profilable(o: MathOracle, c: MachineConfiguration, s: MoveState): (r: bool)
    ensures r ==> Defined(o, s)
    ensures Positive(c) && Defined(o, s) && s.shape.Circular? ==> r
  {
    Defined(o, s) && MaxAccelerationAlong(o, s, c.maxAcceleration) != 0.0
  }

  /**
   * The distance over which acceleration `a` changes velocity `v` into `w`,
   * (w^2 - v^2) / 2a: not positive when `w` is no faster than `v`.
   */
  function ChangeDistance(o: MathOracle, a: real, v: real, w: real): (r: real)
    requires a != 0.0
    ensures 0.0 < a && o.pow(w, 2.0) <= o.pow(v, 2.0) ==> r <= 0.0
  {
    QuotientNonPositive(o.pow(w, 2.0) - o.pow(v, 2.0), 2.0 * a);
    (o.pow(w, 2.0) - o.pow(v, 2.0)) / (2.0 * a)
  }

  /**
   * The guard of `calculateFeedrateProfile` (lines 117-127): accelerating
   * from the start velocity to the target and decelerating from it to the
   * end velocity would take longer than the movement.
   */
  predicate NeedsReduction(o: MathOracle, c: MachineConfiguration, s: MoveState): (r: bool)
    requires Profilable(o, c, s)
    ensures (&& Lawful(o) && Positive(c)
             && o.pow(s.targetVelocity, 2.0) <= o.pow(s.startVelocity, 2.0)
             && o.pow(s.targetVelocity, 2.0) <= o.pow(s.endVelocity, 2.0)) ==> !r
  {
    var a := MaxAccelerationAlong(o, s, c.maxAcceleration);
    ChangeDistance(o, a, s.startVelocity, s.targetVelocity) + ChangeDistance(o, a, s.endVelocity, s.targetVelocity)
      > MoveLength(o, s)
  }

  /** Line 143, as written: sqrt(2 * a * d) + v0^2 for acceleration distance `d`. */
  function FeedrateOver(o: MathOracle, a: real, d: real, v0: real): real {
    o.sqrt(2.0 * a * d) + o.pow(v0, 2.0)
  }

  /**
   * The target the profile sets when the guard holds (lines 130-143), for
   * acceleration `a`, length `distance` and start and end velocities `v0`
   * and `v1`: line 143 over the acceleration distance, which is half of what
   * the length leaves beyond the distance needed to change from `v0` to
   * `v1`, plus that distance when the movement speeds up.
   */
  function ReducedFeedrate(o: MathOracle, a: real, distance: real, v0: real, v1: real): (r: real)
    requires a != 0.0
    ensures Lawful(o) ==> o.pow(v0, 2.0) <= r
  {
    var feedrateDeltaDistance := Abs(o.pow(v1, 2.0) - o.pow(v0, 2.0)) / (2.0 * a);
    var remainingDistance := Abs(distance - feedrateDeltaDistance) / 2.0;
    var accelerationDistance := if v1 > v0 then remainingDistance + feedrateDeltaDistance else remainingDistance;
    FeedrateOver(o, a, accelerationDistance, v0)
  }

  /** The reduced target of a movement. */
  function ReducedTarget(o: MathOracle, c: MachineConfiguration, s: MoveState): (r: real)
    requires Profilable(o, c, s)
    ensures Lawful(o) ==> o.pow(s.startVelocity, 2.0) <= r
  {
    ReducedFeedrate(o, MaxAccelerationAlong(o, s, c.maxAcceleration), MoveLength(o, s), s.startVelocity, s.endVelocity)
  }

  /**
   * `calculateFeedrateProfile`: writes the reduced target when the guard
   * holds and otherwise leaves the movement alone; only the target changes.
   */
  function Profile(o: MathOracle, c: MachineConfiguration, s: MoveState): (r: MoveState)
    requires Profilable(o, c, s)
    ensures r == s.(targetVelocity := r.targetVelocity)
    ensures NeedsReduction(o, c, s) ==> r.targetVelocity == ReducedTarget(o, c, s)
    ensures !NeedsReduction(o, c, s) ==> r == s
    ensures Profilable(o, c, r)
  {
    var r := if NeedsReduction(o, c, s) then s.(targetVelocity := ReducedTarget(o, c, s)) else s;
    SameGeometryQueries(o, s, r, c.maxAcceleration);
    r
  }

  /** The reduced target does not depend on the old target. */
  lemma ReducedTargetIgnoresTarget(o: MathOracle, c: MachineConfiguration, s: MoveState, v: real)
    requires Profilable(o, c, s)
    ensures Profilable(o, c, s.(targetVelocity := v))
    ensures ReducedTarget(o, c, s.(targetVelocity := v)) == ReducedTarget(o, c, s)
  {
    var t := s.(targetVelocity := v);
    SameGeometryQueries(o, s, t, c.maxAcceleration);
    assert MaxAccelerationAlong(o, t, c.maxAcceleration) == MaxAccelerationAlong(o, s, c.maxAcceleration);
    assert MoveLength(o, t) == MoveLength(o, s);
  }

  /** Profiling a movement a second time changes nothing. */
  lemma ProfileIdempotent(o: MathOracle, c: MachineConfiguration, s: MoveState)
    requires Profilable(o, c, s)
    ensures Profile(o, c, Profile(o, c, s)) == Profile(o, c, s)
  {
    var r := Profile(o, c, s);
    ReducedTargetIgnoresTarget(o, c, s, r.targetVelocity);
  }

  /** Every movement of the list can be profiled. */
  predicate AllProfilable(o: MathOracle, c: MachineConfiguration, s: seq<MoveState>) {
    forall k :: 0 <= k < |s| ==> Profilable(o, c, s[k])
  }

  /**
   * The loop of `run` at lines 191-196: every movement profiled in turn; it
   * changes target velocities only.
   */
  function ProfilePass(o: MathOracle, c: MachineConfiguration, s: seq<MoveState>): (r: seq<MoveState>)
    requires AllProfilable(o, c, s)
    ensures |r| == |s| && AllProfilable(o, c, r)
    ensures forall k :: 0 <= k < |s| ==> r[k] == s[k].(targetVelocity := r[k].targetVelocity)
    ensures forall k :: 0 <= k < |s| ==> r[k] == Profile(o, c, s[k])
  {
    seq(|s|, k requires 0 <= k < |s| => Profile(o, c, s[k]))
  }

  /** Profiling the whole list twice is the same as profiling it once. */
  lemma ProfilePassIdempotent(o: MathOracle, c: MachineConfiguration, s: seq<MoveState>)
    requires AllProfilable(o, c, s)
    ensures ProfilePass(o, c, ProfilePass(o, c, s)) == ProfilePass(o, c, s)
  {
    forall k | 0 <= k < |s|
      ensures ProfilePass(o, c, ProfilePass(o, c, s))[k] == ProfilePass(o, c, s)[k]
    {
      ProfileIdempotent(o, c, s[k]);
    }
  }

  // ---------------------------------------------------------------------
  // The whole of `run`

  /** Movements that can be profiled are defined. */
  lemma ProfilableDefined(o: MathOracle, c: MachineConfiguration, s: seq<MoveState>)
    requires AllProfilable(o, c, s)
    ensures AllDefined(o, s)
  {
  }

  /** Lists with the same geometry can be profiled alike. */
  lemma SameGeometriesProfilable(o: MathOracle, c: MachineConfiguration, s: seq<MoveState>, t: seq<MoveState>)
    requires SameGeometries(s, t) && AllProfilable(o, c, s)
    ensures AllProfilable(o, c, t)
  {
    forall k | 0 <= k < |t|
      ensures Profilable(o, c, t[k])
    {
      SameGeometryQueries(o, s[k], t[k], c.maxAcceleration);
    }
  }

  /** Line 156: the first movement starts at rest. */
  function Pin(s: seq<MoveState>): (r: seq<MoveState>)
    requires |s| > 0
    ensures SameGeometries(r, s) && r[0].startVelocity == 0.0
    ensures forall k :: 1 <= k < |s| ==> r[k] == s[k]
  {
    s[0 := s[0].(startVelocity := 0.0)]
  }

  /** The velocity walk of `run` (lines 156-189) from a list, with `fuel` iterations at most. */
  function Walked(o: MathOracle, c: MachineConfiguration, s: seq<MoveState>, fuel: nat): (r: Walk)
    requires Lawful(o) && Positive(c) && |s| > 0 && AllProfilable(o, c, s)
    ensures SameGeometries(r.states, s) && AllProfilable(o, c, r.states)
  {
    ProfilableDefined(o, c, s);
    SameGeometriesProfilable(o, c, s, Pin(s));
    SameGeometriesDefined(o, s, Pin(s));
    var w := VelocityPass(o, c, Pin(s), 0, fuel);
    SameGeometriesProfilable(o, c, s, w.states);
    w
  }

  /** What `run` leaves (lines 154-196): the velocity walk followed by the profile. */
  function Plan(o: MathOracle, c: MachineConfiguration, s: seq<MoveState>, fuel: nat): (r: seq<MoveState>)
    requires Lawful(o) && Positive(c) && |s| > 0 && AllProfilable(o, c, s)
    ensures SameGeometries(r, s) && AllProfilable(o, c, r)
    ensures var w := Walked(o, c, s, fuel).states;
      forall k :: 0 <= k < |s| ==> r[k].startVelocity == w[k].startVelocity && r[k].endVelocity == w[k].endVelocity
  {
    ProfilePass(o, c, Walked(o, c, s, fuel).states)
  }

  /** The planned junctions do not depend on the targets. */
  lemma JoinedIgnoresTargets(o: MathOracle, c: MachineConfiguration, s: seq<MoveState>, t: seq<MoveState>, n: int)
    requires AllDefined(o, s) && |s| == |t|
    requires forall k :: 0 <= k < |s| ==> t[k] == s[k].(targetVelocity := t[k].targetVelocity)
    requires Joined(o, c, s, n)
    ensures AllDefined(o, t) && Joined(o, c, t, n)
  {
    forall k | 0 <= k < |t|
      ensures Defined(o, t[k])
      ensures Defined(o, s[k]) && MaxEndVelocity(o, c, t[k]) == MaxEndVelocity(o, c, s[k])
      ensures MaxStartVelocity(o, c, t[k], t[k].endVelocity) == MaxStartVelocity(o, c, s[k], s[k].endVelocity)
    {
      SameGeometryQueries(o, s[k], t[k], c.maxAcceleration);
    }
  }

  /** The walk of `run` keeps the first movement at rest and plans the junctions behind its index. */
  lemma WalkedProperties(o: MathOracle, c: MachineConfiguration, s: seq<MoveState>, fuel: nat)
    requires Lawful(o) && Positive(c) && |s| > 0 && AllProfilable(o, c, s)
    ensures var w := Walked(o, c, s, fuel);
      && AllDefined(o, w.states) && 0 <= w.index < |s|
      && w.states[0].startVelocity == 0.0
      && (forall k :: 1 <= k < |s| ==> w.states[k].startVelocity <= s[k].startVelocity)
      && Joined(o, c, w.states, w.index)
  {
    ProfilableDefined(o, c, s);
    SameGeometriesDefined(o, s, Pin(s));
    var w := Walked(o, c, s, fuel);
    assert w == VelocityPass(o, c, Pin(s), 0, fuel);
  }

  /**
   * What `run` promises: the geometry of every movement is kept, the first
   * movement starts at rest, no later start velocity rises, and every
   * junction the walk got past is planned: the velocity at which a movement
   * ends is the one its successor starts with, reachable from its start, and
   * its start is reachable backwards from it. When the walk reaches the
   * last movement, that covers every junction.
   */
  lemma PlanProperties(o: MathOracle, c: MachineConfiguration, s: seq<MoveState>, fuel: nat)
    requires Lawful(o) && Positive(c) && |s| > 0 && AllProfilable(o, c, s)
    ensures var r := Plan(o, c, s, fuel);
      && SameGeometries(r, s) && AllDefined(o, r)
      && r[0].startVelocity == 0.0
      && (forall k :: 1 <= k < |s| ==> r[k].startVelocity <= s[k].startVelocity)
      && Joined(o, c, r, Walked(o, c, s, fuel).index)
  {
    var w := Walked(o, c, s, fuel);
    WalkedProperties(o, c, s, fuel);
    JoinedIgnoresTargets(o, c, w.states, Plan(o, c, s, fuel), w.index);
  }

  // ---------------------------------------------------------------------
  // From parsed G-code to movements

  /**
   * A parsed G-code line as `fromParsedGcode` reads it: a command word and
   * its parameters by letter. The Go type `GCodeCommand` is not defined in
   * the repository; this is the shape its uses require.
   */
  datatype GCodeCommand = GCodeCommand(command: string, params: map<string, real>)

  /** A Go map lookup: a missing letter reads as 0. */
  function Param(g: GCodeCommand, key: string): (r: real)
    ensures key !in g.params ==> r == 0.0
    ensures key in g.params ==> r == g.params[key]
  {
    if key in g.params then g.params[key] else 0.0
  }

  /** The target of a command, from its X, Y and Z parameters. */
  function TargetOf(g: GCodeCommand): Vector3d {
    Vector3d(Param(g, "X"), Param(g, "Y"), Param(g, "Z"))
  }

  /** The centre offset of an arc command, from its I, J and K parameters. */
  function OffsetOf(g: GCodeCommand): Vector3d {
    Vector3d(Param(g, "I"), Param(g, "J"), Param(g, "K"))
  }

  /**
   * The movement `fromParsedGcode` creates for a command (lines 83-109), as
   * its initial snapshot: G0 a line at the rapid velocity, G1 a line at the
   * feed F, G2 and G3 an arc about the Z axis at the feed F, clockwise for
   * G2; any other command creates nothing.
   */
  function NewMovementState(c: MachineConfiguration, g: GCodeCommand): (r: Option<MoveState>)
    ensures r.Some? <==> g.command in {"G0", "G1", "G2", "G3"}
    ensures r.Some? ==> r.value.startPosition == Origin && r.value.endPosition == TargetOf(g)
    ensures r.Some? ==>
      r.value.startVelocity == r.value.targetVelocity == r.value.gcodeVelocity && r.value.endVelocity == 0.0
    ensures r.Some? ==> r.value.gcodeVelocity == (if g.command == "G0" then c.rapidVelocity else Param(g, "F"))
    ensures r.Some? ==> (r.value.shape.Circular? <==> g.command in {"G2", "G3"})
    ensures r.Some? && r.value.shape.Circular? ==>
      r.value.shape == Circular(OffsetOf(g), g.command == "G2", ZAxis)
  {
    if g.command == "G0" then Some(InitialLinear(TargetOf(g), c.rapidVelocity))
    else if g.command == "G1" then Some(InitialLinear(TargetOf(g), Param(g, "F")))
    else if g.command == "G2" || g.command == "G3" then
      Some(InitialArc(TargetOf(g), OffsetOf(g), Param(g, "F"), g.command == "G2", ZAxis))
    else None
  }

  /** The initial snapshots of the movements a list of commands creates, one per movement command, in order. */
  function Dispatched(c: MachineConfiguration, gs: seq<GCodeCommand>): (r: seq<MoveState>)
    ensures |r| <= |gs|
  {
    if gs == [] then []
    else
      var front := Dispatched(c, gs[..|gs| - 1]);
      match NewMovementState(c, gs[|gs| - 1])
      case Some(s) => front + [s]
      case None => front
  }

  /** Dispatching a concatenation dispatches the two parts in order. */
  lemma {:induction false} DispatchedConcat(c: MachineConfiguration, gs: seq<GCodeCommand>, hs: seq<GCodeCommand>)
    ensures Dispatched(c, gs + hs) == Dispatched(c, gs) + Dispatched(c, hs)
    decreases |hs|
  {
    if hs == [] {
      assert gs + hs == gs;
    } else {
      assert (gs + hs)[..|gs + hs| - 1] == gs + hs[..|hs| - 1];
      DispatchedConcat(c, gs, hs[..|hs| - 1]);
    }
  }

  /** Every command is dispatched to a movement exactly when all of them are G0 to G3. */
  lemma {:induction false} DispatchedAll(c: MachineConfiguration, gs: seq<GCodeCommand>)
    ensures |Dispatched(c, gs)| == |gs| <==> forall k :: 0 <= k < |gs| ==> NewMovementState(c, gs[k]).Some?
  {
    if gs != [] {
      var front := gs[..|gs| - 1];
      DispatchedAll(c, front);
      assert forall k :: 0 <= k < |front| ==> front[k] == gs[k];
    }
  }

  /** Dispatching one more command appends its movement, if it creates one. */
  lemma DispatchedStep(c: MachineConfiguration, gs: seq<GCodeCommand>, k: int)
    requires 0 <= k < |gs|
    ensures Dispatched(c, gs[..k + 1])
         == Dispatched(c, gs[..k]) + (if NewMovementState(c, gs[k]).Some? then [NewMovementState(c, gs[k]).value] else [])
  {
    assert gs[..k + 1][..k] == gs[..k];
  }

  /** The end of a chain of movements starting at `p`: `p` itself when there are none. */
  function ChainEnd(ss: seq<MoveState>, p: Vector3d): Vector3d {
    if ss == [] then p else ss[|ss| - 1].endPosition
  }

  /**
   * The snapshots `addMovement` leaves when adding `ss` in turn to a list
   * whose path ends at `p`: each starts where the previous one ends.
   */
  function Chain(ss: seq<MoveState>, p: Vector3d): (r: seq<MoveState>)
    ensures |r| == |ss|
    ensures forall k :: 0 <= k < |ss| ==> r[k] == ss[k].(startPosition := r[k].startPosition)
  {
    if ss == [] then []
    else
      var front := ss[..|ss| - 1];
      Chain(front, p) + [ss[|ss| - 1].(startPosition := ChainEnd(front, p))]
  }

  /** Adding one more movement to a chain starts it where the chain ends. */
  lemma ChainAppend(ss: seq<MoveState>, t: MoveState, p: Vector3d)
    ensures Chain(ss + [t], p) == Chain(ss, p) + [t.(startPosition := ChainEnd(ss, p))]
    ensures ChainEnd(ss + [t], p) == t.endPosition
  {
    assert (ss + [t])[..|ss|] == ss;
  }

  /** Dispatching and chaining one command more extends the chain of the commands before it. */
  lemma ChainConcat(c: MachineConfiguration, gs: seq<GCodeCommand>, k: int, p: Vector3d)
    requires 0 <= k < |gs|
    ensures var before := Dispatched(c, gs[..k]);
      && Chain(Dispatched(c, gs[..k + 1]), p) == Chain(before, p) + Chain(Dispatched(c, [gs[k]]), ChainEnd(before, p))
      && ChainEnd(Dispatched(c, gs[..k + 1]), p) == ChainEnd(Dispatched(c, [gs[k]]), ChainEnd(before, p))
  {
    var before := Dispatched(c, gs[..k]);
    DispatchedStep(c, gs, k);
    assert [gs[k]][..0] == [];
    if NewMovementState(c, gs[k]).Some? {
      ChainAppend(before, NewMovementState(c, gs[k]).value, p);
    } else {
      assert Dispatched(c, gs[..k + 1]) == before;
    }
  }

  /**
   * After the first `k` commands of `gs`, snapshots `s0` followed by the
   * chain of their movements from `p`, and the path ending where that chain ends.
   */
  predicate Progress(c: MachineConfiguration, gs: seq<GCodeCommand>, k: int, p: Vector3d,
                     s0: seq<MoveState>, now: seq<MoveState>, last: Vector3d)
    requires 0 <= k <= |gs|
  {
    now == s0 + Chain(Dispatched(c, gs[..k]), p) && last == ChainEnd(Dispatched(c, gs[..k]), p)
  }

  /** One iteration of `fromParsedGcode` chains command `k` after the first `k`. */
  lemma ChainExtend(c: MachineConfiguration, gs: seq<GCodeCommand>, k: int, p: Vector3d,
                    s0: seq<MoveState>, before: seq<MoveState>, prev: Vector3d,
                    now: seq<MoveState>, last: Vector3d)
    requires 0 <= k < |gs|
    requires Progress(c, gs, k, p, s0, before, prev)
    requires NewMovementState(c, gs[k]).None? ==> now == before && last == prev
    requires NewMovementState(c, gs[k]).Some? ==>
      && now == before + [NewMovementState(c, gs[k]).value.(startPosition := prev)]
      && last == NewMovementState(c, gs[k]).value.endPosition
    ensures Progress(c, gs, k + 1, p, s0, now, last)
  {
    var ds := Dispatched(c, gs[..k]);
    DispatchedStep(c, gs, k);
    match NewMovementState(c, gs[k])
    case None =>
      assert Dispatched(c, gs[..k + 1]) == ds;
    case Some(v) =>
      assert Dispatched(c, gs[..k + 1]) == ds + [v];
      ChainAppend(ds, v, p);
      assert now == s0 + (Chain(ds, p) + [v.(startPosition := ChainEnd(ds, p))]);
  }

  /** A chain from the origin is a path that ends where its last movement ends. */
  lemma {:induction false} ChainIsPath(ss: seq<MoveState>)
    ensures Chained(Chain(ss, Origin), ChainEnd(ss, Origin))
  {
    if ss != [] {
      var front := ss[..|ss| - 1];
      ChainIsPath(front);
      var t := ss[|ss| - 1].(startPosition := ChainEnd(front, Origin));
      if front != [] {
        assert Chain(front, Origin)[|front| - 1].endPosition == front[|front| - 1].endPosition;
      }
      ChainedAppend(Chain(front, Origin), ChainEnd(front, Origin), t);
    }
  }

  // ---------------------------------------------------------------------
  // The planner object

  class MotionPlanner {
    const commandList: CommandList
    const config: MachineConfiguration

    /** `newMotionPlanner`: an empty command list, whose path ends at the origin. */
    constructor(config: MachineConfiguration)
      ensures this.config == config && fresh(commandList)
      ensures commandList.arr == [] && commandList.previousPosition == Origin && commandList.Valid()
    {
      this.config := config;
      commandList := new CommandList();
    }

    /** The creating half of one case of `fromParsedGcode`: a new movement object for a movement command. */
    method NewMovement(g: GCodeCommand) returns (mv: Option<Movement>)
      ensures mv.Some? <==> NewMovementState(config, g).Some?
      ensures mv.Some? ==> fresh(mv.value.Obj()) && mv.value.State() == NewMovementState(config, g).value
    {
      if g.command == "G0" {
        var l := new Linear.LinearMovement(TargetOf(g), config.rapidVelocity);
        mv := Some(LinearMove(l));
      } else if g.command == "G1" {
        var l := new Linear.LinearMovement(TargetOf(g), Param(g, "F"));
        mv := Some(LinearMove(l));
      } else if g.command == "G2" || g.command == "G3" {
        var clockwise := g.command == "G2";
        var a := new Arcs.ArcMovement(TargetOf(g), OffsetOf(g), Param(g, "F"), clockwise, ZAxis);
        mv := Some(ArcMove(a));
      } else {
        mv := None;
      }
    }

    /**
     * One iteration of `fromParsedGcode` (lines 83-109): a movement command
     * adds its new movement after the path; any other command changes nothing.
     */
    method AddCommand(g: GCodeCommand)
      modifies commandList
      ensures NewMovementState(config, g).None? ==>
        && States(commandList.Movements()) == old(States(commandList.Movements()))
        && commandList.previousPosition == old(commandList.previousPosition)
      ensures NewMovementState(config, g).Some? ==>
        && States(commandList.Movements()) == old(States(commandList.Movements()))
             + [NewMovementState(config, g).value.(startPosition := old(commandList.previousPosition))]
        && commandList.previousPosition == NewMovementState(config, g).value.endPosition
      ensures old(commandList.Valid()) ==> commandList.Valid()
    {
      ghost var ms := commandList.Movements();
      ghost var fp := Footprint(ms);
      var mv := NewMovement(g);
      assert unchanged(fp);
      ListUnchanged(commandList);
      ghost var s0 := States(ms);
      if mv.Some? {
        assert commandList.Movements() == ms;
        assert mv.value.Obj() !in fp;
        commandList.AddMovement(mv.value);
        AppendStates(commandList);
        assert States(commandList.Movements()) == s0 + [mv.value.State()];
      } else {
        assert NewMovementState(config, g).None?;
      }
    }

    /**
     * `fromParsedGcode`: adds one new movement per movement command, in
     * order, chained after the path so far; the list stays valid.
     */
    method FromParsedGcode(gcodeList: seq<GCodeCommand>)
      modifies commandList
      ensures States(commandList.Movements())
           == old(States(commandList.Movements())) + Chain(Dispatched(config, gcodeList), old(commandList.previousPosition))
      ensures commandList.previousPosition == ChainEnd(Dispatched(config, gcodeList), old(commandList.previousPosition))
      ensures old(commandList.Valid()) ==> commandList.Valid()
    {
      ghost var s0 := States(commandList.Movements());
      ghost var p0 := commandList.previousPosition;
      ghost var valid := commandList.Valid();
      var k := 0;
      while k < |gcodeList|
        invariant 0 <= k <= |gcodeList|
        invariant Progress(config, gcodeList, k, p0, s0, States(commandList.Movements()), commandList.previousPosition)
        invariant valid ==> commandList.Valid()
      {
        ghost var before := States(commandList.Movements());
        ghost var prev := commandList.previousPosition;
        AddCommand(gcodeList[k]);
        ChainExtend(config, gcodeList, k, p0, s0, before, prev,
                    States(commandList.Movements()), commandList.previousPosition);
        k := k + 1;
      }
      assert gcodeList[..k] == gcodeList;
    }
  
    /**
     * Lines 164-168 of `run` on movement `i` of the list: the target is
     * limited and the end velocity set to the velocity reachable from the start.
     */
    method PrepareAt(o: MathOracle, ms: seq<Movement>, i: int)
      requires Distinct(ms) && AllDefined(o, States(ms)) && 0 <= i < |ms|
      modifies ms[i].Obj()
      ensures States(ms) == old(States(ms))[i := Prepared(o, config, old(States(ms))[i])]
    {
      ghost var s := States(ms);
      LimitVelocityAt(o, ms, i, config.maxVelocity);
      ghost var t := s[i].(targetVelocity := LimitedTarget(o, s[i], config.maxVelocity));
      assert States(ms) == s[i := t];
      SameGeometryQueries(o, s[i], t, config.maxAcceleration);
      var maxEnd := MaxEndVelocity(o, config, ms[i].State());
      SetEndVelocityAt(ms, i, maxEnd);
      UpdateTwice(s, i, t, t.(endVelocity := maxEnd));
    }

    /** Lines 185-186 of `run`: movement `i` ends and movement `i + 1` starts at the junction velocity. */
    method JoinAt(ms: seq<Movement>, i: int, junction: real)
      requires Distinct(ms) && 0 <= i < |ms| - 1
      modifies ms[i].Obj(), ms[i + 1].Obj()
      ensures States(ms) == old(States(ms))[i := old(States(ms))[i].(endVelocity := junction)]
                                           [i + 1 := old(States(ms))[i + 1].(startVelocity := junction)]
    {
      SetEndVelocityAt(ms, i, junction);
      SetStartVelocityAt(ms, i + 1, junction);
    }

    /**
     * One iteration of the loop of `run` (lines 161-188) on movements `i`
     * and `i + 1` of the list: exactly what `Step` does on the snapshots,
     * returning the next index.
     */
    method IterateOnce(o: MathOracle, ms: seq<Movement>, i: int) returns (j: int)
      requires Positive(config) && Distinct(ms) && AllDefined(o, States(ms)) && 0 <= i < |ms| - 1
      modifies ms[i].Obj(), ms[i + 1].Obj()
      ensures States(ms) == Step(o, config, old(States(ms)), i).states
      ensures j == Step(o, config, old(States(ms)), i).index
    {
      ghost var s := States(ms);
      PrepareAt(o, ms, i);
      var junction := JunctionVelocity(o, config, ms[i].State(), ms[i + 1].State());
      var maxStart := MaxStartVelocity(o, config, ms[i].State(), junction);
      ghost var p := ms[i].State();
      StepOutcome(o, config, s, i, p, junction, maxStart);
      if maxStart < ms[i].State().startVelocity {
        SetStartVelocityAt(ms, i, maxStart);
        UpdateTwice(s, i, p, p.(startVelocity := maxStart));
        j := i - 1;
      } else {
        JoinAt(ms, i, junction);
        UpdateTwice(s, i, p, p.(endVelocity := junction));
        j := i + 1;
      }
    }
  
    /**
     * `calculateFeedrateProfile` (lines 113-150): when accelerating to the
     * target and decelerating from it would take longer than the movement,
     * the target is lowered to the reduced feed rate; only the target changes.
     */
    method CalculateFeedrateProfile(o: MathOracle, movement: Movement)
      requires Profilable(o, config, movement.State())
      modifies movement.Obj()
      ensures movement.State() == Profile(o, config, old(movement.State()))
    {
      var s := movement.State();
      var maxAcceleration := MaxAccelerationAlong(o, s, config.maxAcceleration);
      var accelerationDistance := ChangeDistance(o, maxAcceleration, s.startVelocity, s.targetVelocity);
      var decelerationDistance := ChangeDistance(o, maxAcceleration, s.endVelocity, s.targetVelocity);
      var accelerationDecelerationDistance := accelerationDistance + decelerationDistance;
      if accelerationDecelerationDistance > MoveLength(o, s) {
        var feedrateDeltaDistance := Abs(o.pow(s.endVelocity, 2.0) - o.pow(s.startVelocity, 2.0)) / (2.0 * maxAcceleration);
        var remainingDistance := Abs(MoveLength(o, s) - feedrateDeltaDistance) / 2.0;
        if s.endVelocity > s.startVelocity {
          accelerationDistance := remainingDistance + feedrateDeltaDistance;
          decelerationDistance := remainingDistance;
        } else {
          accelerationDistance := remainingDistance;
          decelerationDistance := remainingDistance + feedrateDeltaDistance;
        }
        var reducedTargetFeedrate := FeedrateOver(o, maxAcceleration, accelerationDistance, s.startVelocity);
        assert accelerationDistance
            == (if s.endVelocity > s.startVelocity then remainingDistance + feedrateDeltaDistance else remainingDistance);
        SetTargetVelocity(movement, reducedTargetFeedrate);
      }
    }
  
    /** `calculateFeedrateProfile` on movement `k` of the list: only that snapshot changes. */
    method ProfileAt(o: MathOracle, ms: seq<Movement>, k: int)
      requires Distinct(ms) && 0 <= k < |ms| && Profilable(o, config, States(ms)[k])
      modifies ms[k].Obj()
      ensures States(ms) == old(States(ms))[k := Profile(o, config, old(States(ms))[k])]
    {
      CalculateFeedrateProfile(o, ms[k]);
      SlotUpdated(Slot(ms, k));
    }

    /**
     * The loop of `run` at lines 159-189, for at most `fuel` iterations,
     * from index 0: the list ends as `VelocityPass` says.
     */
    method WalkVelocities(o: MathOracle, ms: seq<Movement>, fuel: nat)
      requires Lawful(o) && Positive(config) && Distinct(ms) && |ms| > 0
      requires AllDefined(o, States(ms)) && States(ms)[0].startVelocity == 0.0
      modifies Footprint(ms)
      ensures States(ms) == VelocityPass(o, config, old(States(ms)), 0, fuel).states
    {
      ghost var s0 := States(ms);
      var i := 0;
      var f := fuel;
      while f > 0 && i < |ms| - 1
        invariant 0 <= i <= |ms| - 1
        invariant AllDefined(o, States(ms)) && States(ms)[0].startVelocity == 0.0
        invariant VelocityPass(o, config, States(ms), i, f) == VelocityPass(o, config, s0, 0, fuel)
        decreases f
      {
        ghost var now := States(ms);
        ghost var before := i;
        ghost var left := f;
        assert ms[i] in ms && ms[i + 1] in ms;
        i := IterateOnce(o, ms, i);
        f := f - 1;
        PassStep(o, config, now, before, left);
        SameFuel(o, config, States(ms), i, f, left - 1);
      }
    }

    /** The loop of `run` at lines 191-196: every movement of the list profiled in turn. */
    method ProfileAll(o: MathOracle, ms: seq<Movement>)
      requires Distinct(ms) && AllProfilable(o, config, States(ms))
      modifies Footprint(ms)
      ensures States(ms) == ProfilePass(o, config, old(States(ms)))
    {
      ghost var s0 := States(ms);
      ghost var target := ProfilePass(o, config, s0);
      for k := 0 to |ms|
        invariant forall j :: 0 <= j < |ms| ==> States(ms)[j] == (if j < k then target[j] else s0[j])
      {
        assert ms[k] in ms;
        ProfileAt(o, ms, k);
      }
    }

    /**
     * The body of `run` after `GetMovementList` (lines 156-196): the first
     * movement is set at rest, the velocity walk runs for at most `fuel`
     * iterations, then every movement is profiled.
     */
    method PlanMovements(o: MathOracle, ms: seq<Movement>, fuel: nat)
      requires Lawful(o) && Positive(config) && Distinct(ms)
      requires |ms| > 0 && AllProfilable(o, config, States(ms))
      modifies Footprint(ms)
      ensures States(ms) == Plan(o, config, old(States(ms)), fuel)
    {
      ghost var s0 := States(ms);
      ProfilableDefined(o, config, s0);
      assert ms[0] in ms;
      SetStartVelocityAt(ms, 0, 0.0);
      assert States(ms) == Pin(s0);
      SameGeometriesDefined(o, s0, Pin(s0));
      WalkVelocities(o, ms, fuel);
      assert States(ms) == Walked(o, config, s0, fuel).states;
      ProfileAll(o, ms);
    }

    /**
     * `run` (lines 152-204): plans the movements of the list in place; the
     * list ends as `Plan` says, which `PlanProperties` describes.
     */
    method Run(o: MathOracle, fuel: nat)
      requires Lawful(o) && Positive(config) && Distinct(commandList.Movements())
      requires |commandList.Movements()| > 0 && AllProfilable(o, config, States(commandList.Movements()))
      modifies Footprint(commandList.Movements())
      ensures States(commandList.Movements()) == Plan(o, config, old(States(commandList.Movements())), fuel)
    {
      var movements := commandList.GetMovementList();
      assert commandList !in Footprint(movements);
      PlanMovements(o, movements, fuel);
      assert commandList.Movements() == movements;
    }
  }
}
