# goCNC motion planner, modelled in Dafny

This project models the core of goCNC, a small G-code motion planner written in Go. Its parts are:

- A modal G-code line parser. It turns lines such as `G1 X10 F50` into G0–G3 command records. A line without a command word repeats the previous command. A parameter a line leaves out keeps its previous value.
- A path list. The movements built from the commands are appended to it, each starting where the previous one ends.
- A look-ahead planner. It walks the list and assigns every movement its start, end and target velocities. It respects:
  - per-axis velocity and acceleration limits;
  - a cornering velocity at each junction, derived from a path-deviation tolerance;
  - a single-step backward correction;
  - a feed-rate profile that lowers a target which cannot be reached within the movement's length.

Every quantity is a `real`. Go's `math.Sqrt`, `math.Acos`, `math.Sin`, `math.Pow` and `math.Pi` are fields of an oracle value `Numerics.MathOracle`, passed to every operation that uses them. `Numerics.Lawful` lists the only facts the proofs assume about them:

- a square root is never negative;
- the square root of 0 is 0;
- an arc cosine lies in [0, π].

`strconv.ParseFloat` is likewise a parameter `parseFloat: string -> Option<real>`.

The modules follow the Go files:

| module | file | form |
|---|---|---|
| `Numerics` | (math library) | oracle record, `Abs`, `Min` |
| `Vectors` | vector3d.go | datatypes and functions |
| `Machine` | machine_configuration.go | an immutable datatype and functions |
| `Movements` | movement.go | `MoveState`, the value that the getters of the `Movement` interface return |
| `Linear` | linear_movement.go | pure queries as functions; `class LinearMovement` with its setters and `LimitVelocity` |
| `Arcs` | arc_movement.go | pure queries as functions; `class ArcMovement` with its setters and `LimitVelocity` |
| `Dispatch` | movement.go | the `Movement` interface as a tagged reference to one of the two classes, plus the setters applied to one position of a list |
| `Commands` | command_list.go | `class CommandList` and its path invariant |
| `Planner` | motion_planner.go | the planning rules as functions, `run` as functions on snapshots, and `class MotionPlanner`, whose methods update the movement objects in place |
| `GCode` | gcode_parser.go | text helpers and `parseCommand` on values; `class GCodeParser`, whose `ParseCommand` and `Parse` loops are proved against those functions |
| `Wrappers` | — | `Option` and `Result` |

The imperative methods are proved against pure functions on snapshots of the movements (`Dispatch.States`). The properties are proved about those functions:

- `Planner.MotionPlanner.Run` leaves the list as `Planner.Plan` says.
- `Planner.PlanProperties` states what that plan guarantees.
- `GCode.GCodeParser.Parse` returns what `GCode.ParseLines` says.
- The lemmas about `GCode.ParseLine` state what one line does.

Points where the Go code does something a reader might not expect, and which the model follows as written:

- `AngleWith` (vector3d.go:52-56) passes the raw ratio dot / (|v|·|w|) to `math.Acos` and does not clamp it to [-1, 1]. The model passes the same raw ratio to the oracle.
- `Rotate90` (vector3d.go:59-79), turning about Z, maps clockwise to (-y, x, z) and counter-clockwise to (y, -x, z). The model uses the code's signs for all three axes.
- The comment at motion_planner.go:129 gives v^2 = v_0^2 + 2ad. Lines 51 and 76 compute sqrt(v^2 + a*d), without the factor 2, and the model does the same.
- `getMaxAcceleractionForTwoVectors` (machine_configuration.go:36-55) starts from the largest per-axis limit. When neither direction touches any axis, it returns that starting value.
- The callers use lower-case `length`, `normalize` and `subtract` and an undefined `max()`. These are read as `Length`, `Normalize` and `Subtract`. `max()` is read as the largest component, as the comment at arc_movement.go:142 says.

## Model

| member | source | states |
|---|---|---|
| Vectors.Subtract | vector3d.go:87-89 | adding back the subtrahend restores the minuend; the difference is zero exactly when the two vectors are equal |
| Vectors.Add | vector3d.go:82-84 | the zero vector is the identity on either side |
| Vectors.Dot | vector3d.go:47-49 | the dot product with the zero vector is 0 |
| Vectors.Length | vector3d.go:42-44 | the length is never negative and is zero for the zero vector |
| Vectors.Normalize | vector3d.go:36-39 | requires a non-zero length (Go divides by zero otherwise); a normalised vector is not the zero vector |
| Vectors.AngleWith | vector3d.go:52-56 | requires a non-zero product of the two lengths; the unclamped arc cosine lies in [0, pi] |
| Vectors.Rotate90 | vector3d.go:59-79 | a quarter turn leaves the component along the rotation axis unchanged |
| Vectors.Max | arc_movement.go:142-143 | the largest of the three components: at least each one, and equal to one of them |
| Vectors.Projection | machine_configuration.go:19-20 | the projection of a limit vector onto a direction, shared by the projecting rules: non-negative, and plus or minus dot / length |
| Vectors.RotateInverse | vector3d.go:59-79 | turning back the other way undoes a quarter turn |
| Vectors.RotatePreservesSquaredLength | vector3d.go:59-79 | a quarter turn keeps Dot(r, r) == Dot(v, v) |
| Vectors.RotateOrthogonal | vector3d.go:59-79 | a vector with zero axis component is orthogonal to its quarter turn |
| Vectors.RotateTwiceNegatesPlane | vector3d.go:59-79 | two equal quarter turns negate both in-plane components |
| Vectors.RotatePeriodFour | vector3d.go:59-79 | four equal quarter turns are the identity |
| Vectors.AddSubtractCancel | vector3d.go:82-89 | Subtract(Add(v, w), w) == v |
| Numerics.Abs | linear_movement.go:114 | `math.Abs`: never negative, and equal to the operand or its negation |
| Numerics.Min | motion_planner.go:62-64 | `math.Min` on ordinary operands: at most both, and equal to one of them |
| Machine.NewMachineConfiguration | machine_configuration.go:12-15 | the constructor stores its four arguments unchanged |
| Machine.GetMaxVelocity | machine_configuration.go:17-22 | the velocity limit vector projected onto a direction, \|dot / length\|, never negative |
| Machine.GetMaxAccelerationScalar | machine_configuration.go:24-34 | the global minimum: at most each per-axis acceleration limit, and equal to one of them |
| Machine.GetMaxAccelerationForTwoVectors | machine_configuration.go:36-55 | at most the largest limit and each limit of an axis either direction touches; equal to the seed or to one of the touched limits |
| Machine.GetMaxAcceleration | machine_configuration.go:57-62 | the acceleration projected onto the start direction is never negative |
| Machine.ForTwoVectorsBetweenScalarAndMax | machine_configuration.go:24-55 | the two-vector rule lies between the global minimum and the largest limit |
| Machine.ForTwoVectorsUntouched | machine_configuration.go:36-55 | with no axis touched the result is the seed, the largest limit |
| Machine.ForTwoVectorsSymmetric | machine_configuration.go:38-50 | the rule is symmetric in its two directions |
| Machine.ForTwoVectorsIgnoresUntouchedAxes | machine_configuration.go:36-55 | the limit of an axis neither direction touches does not affect the result |
| Machine.GetMaxAccelerationIgnoresEnd | machine_configuration.go:57-62 | the end direction is never read |
| Linear.StartDirection | linear_movement.go:89-96 | the start direction is the zero vector exactly when the displacement has zero length, in particular when start and end coincide |
| Linear.EndDirection | linear_movement.go:99-101 | requires start != end in length (Go divides by zero otherwise); the end direction is not the zero vector |
| Linear.MoveLength | linear_movement.go:104-106 | the length is never negative and is 0 when start and end coincide |
| Linear.LimitedTarget | linear_movement.go:109-120 | the clamped target is at most the old target and the projected limit; it is unchanged when already within the limit; it equals one of the two |
| Linear.MaxAccelerationAlong | linear_movement.go:122-129 | the projected acceleration limit is never negative |
| Linear.MoveLengthSymmetric | linear_movement.go:104-106 | the length is symmetric in start and end |
| Linear.DefinedMovesSomewhere | linear_movement.go:89-101 | a movement whose queries divide by non-zero numbers has distinct end points |
| Linear.LimitIdempotent | linear_movement.go:109-120 | clamping a second time changes nothing |
| Linear.LinearMovement.constructor | linear_movement.go:19-28 | starts at the origin, with start, target and G-code velocity equal to the feed and an end velocity of 0 |
| Linear.LinearMovement.SetStartPosition | linear_movement.go:64-66 | changes the start position and no other field |
| Linear.LinearMovement.SetEndPosition | linear_movement.go:69-71 | changes the end position and no other field |
| Linear.LinearMovement.SetStartVelocity | linear_movement.go:74-76 | changes the start velocity and no other field |
| Linear.LinearMovement.SetEndVelocity | linear_movement.go:79-81 | changes the end velocity and no other field |
| Linear.LinearMovement.SetTargetVelocity | linear_movement.go:84-86 | changes the target velocity and no other field |
| Linear.LinearMovement.SetGcodeVelocity | linear_movement.go:54-56 | changes the G-code velocity and no other field |
| Linear.LinearMovement.LimitVelocity | linear_movement.go:109-120 | the target becomes `Linear.LimitedTarget` of the old target; no other field changes |
| Arcs.StartDirection | arc_movement.go:95-97 | the start direction keeps the axis component and the squared length of the centre offset |
| Arcs.Center | arc_movement.go:100-102 | the centre minus the start position is the centre offset |
| Arcs.EndDirection | arc_movement.go:105-107 | requires the end to differ from the centre; the end direction is not the zero vector |
| Arcs.Angle | arc_movement.go:110-118 | the angle is 2 pi minus AngleWith(start direction, end direction) for a clockwise arc and equal to it otherwise; it lies in [pi, 2 pi] or in [0, pi] respectively |
| Arcs.ArcLength | arc_movement.go:166-168 | the arc length is never negative |
| Arcs.LimitedTarget | arc_movement.go:121-138 | the target never rises, is at most the velocity limit of each axis other than the rotation axis, and equals the old target or one of those limits |
| Arcs.MaxAccelerationAlong | arc_movement.go:140-163 | equals the smaller of the two in-plane acceleration limits, because the seed from `max()` bounds both |
| Arcs.LimitIdempotent | arc_movement.go:121-138 | clamping a second time changes nothing |
| Arcs.LimitIgnoresAxisComponent | arc_movement.go:121-138 | the velocity limit along the rotation axis is never consulted |
| Arcs.ArcMovement.constructor | arc_movement.go:22-34 | starts at the origin, with start, target and G-code velocity equal to the feed and an end velocity of 0; keeps the offset, the sense and the axis |
| Arcs.ArcMovement.SetStartPosition | arc_movement.go:62-64 | changes the start position and no other field |
| Arcs.ArcMovement.SetEndPosition | arc_movement.go:67-69 | changes the end position and no other field |
| Arcs.ArcMovement.SetStartVelocity | arc_movement.go:72-74 | changes the start velocity and no other field |
| Arcs.ArcMovement.SetEndVelocity | arc_movement.go:77-79 | changes the end velocity and no other field |
| Arcs.ArcMovement.SetTargetVelocity | arc_movement.go:82-84 | changes the target velocity and no other field |
| Arcs.ArcMovement.SetGcodeVelocity | arc_movement.go:90-92 | changes the G-code velocity and no other field |
| Arcs.ArcMovement.LimitVelocity | arc_movement.go:121-138 | the target becomes `Arcs.LimitedTarget` of the old target after the three sequential writes; no other field changes |
| Dispatch.EndDirection | movement.go:19 | the end direction of either kind of movement is not the zero vector |
| Dispatch.StartDirection | movement.go:18 | defined for every movement; a straight movement that stays where it is has the zero vector as start direction |
| Dispatch.MaxAccelerationAlong | movement.go:22 | never negative for a straight movement; the smaller in-plane limit for an arc; never negative when the per-axis limits are positive |
| Dispatch.MoveLength | movement.go:20 | the length of either kind of movement is never negative |
| Dispatch.LimitedTarget | movement.go:21 | `limitVelocity` of either kind never raises the target |
| Dispatch.SameGeometryQueries | movement.go:18-22 | directions, length and acceleration limit depend only on the geometry, not on the three planned velocities |
| Dispatch.SetStartPosition | movement.go:13 | the interface setter changes only the start position of the object |
| Dispatch.SetStartVelocity | movement.go:15 | the interface setter changes only the start velocity of the object |
| Dispatch.SetEndVelocity | movement.go:16 | the interface setter changes only the end velocity of the object |
| Dispatch.SetTargetVelocity | movement.go:17 | the interface setter changes only the target velocity of the object |
| Dispatch.LimitVelocity | movement.go:21 | the interface call changes only the target, to `Dispatch.LimitedTarget` |
| Dispatch.States | movement.go:6-11 | one snapshot per movement, in order |
| Dispatch.SlotUpdated | motion_planner.go:161-162 | when only the object at index i of a list of distinct movements changes, only snapshot i changes |
| Dispatch.SetStartVelocityAt | motion_planner.go:180 | writing a start velocity at index i changes only that field of snapshot i |
| Dispatch.SetEndVelocityAt | motion_planner.go:168 | writing an end velocity at index i changes only that field of snapshot i |
| Dispatch.SetTargetVelocityAt | motion_planner.go:145 | writing a target velocity at index i changes only that field of snapshot i |
| Dispatch.LimitVelocityAt | motion_planner.go:164 | limiting movement i changes only its target |
| Commands.MovementsOf | command_list.go:32-42 | the movement entries are no more than the entries |
| Commands.ChainedAppend | command_list.go:18-24 | appending a movement that starts where the path ends extends the path |
| Commands.AllMovements | command_list.go:32-42 | when every entry is a movement, all of them are returned, in insertion order |
| Commands.DistinctAppend | command_list.go:22 | appending a new object keeps the objects of the list distinct |
| Commands.StatesAppend | command_list.go:22 | the snapshots of the extended list extend the snapshots of the list |
| Commands.AppendKeepsPath | command_list.go:18-24 | appending a new movement that starts where the path ends keeps the list invariant |
| Commands.StatesUnchanged | command_list.go:32-42 | the snapshots of a list depend only on its objects |
| Commands.AddKeepsValid | command_list.go:18-24 | `addMovement` keeps the invariant: all entries are movements on distinct objects, forming a path from the origin that ends at previous_position |
| Commands.ListUnchanged | command_list.go:32-42 | a list whose objects are untouched keeps its snapshots and its validity |
| Commands.AppendStates | command_list.go:22 | appending changes the snapshots only by the new one at the end |
| Commands.CommandList.constructor | command_list.go:27-29 | a new list is empty, its path ends at the origin, and it is valid |
| Commands.CommandList.AddMovement | command_list.go:18-24 | the movement is appended; its start becomes the old previous_position, with nothing else of it changed; previous_position becomes its end; the invariant is kept |
| Commands.CommandList.GetMovementList | command_list.go:32-42 | returns the movement entries in insertion order and changes nothing |
| Commands.ValidListIsPath | command_list.go:18-42 | a valid list returns every entry, on distinct objects, chained from the origin |
| Planner.MinBound | motion_planner.go:63 | `math.Min` with a possibly infinite cornering velocity: at most both operands, equal to one of them, and an infinite bound never wins |
| Planner.CalculateRadius | motion_planner.go:20-23 | the radius is +Inf exactly when sin(angle/2) is 1, and is finite and non-negative when the sine lies in [0, 1) |
| Planner.CornerAngle | motion_planner.go:33 | the angle at a corner lies in [0, pi]; only the first movement need be free of divisions by zero |
| Planner.GetMaxCornerVelocity | motion_planner.go:25-42 | 0 when either direction has zero length, including a next movement of zero length; +Inf exactly when the path runs straight through the corner; never negative; only the first movement need be free of divisions by zero |
| Planner.JunctionVelocity | motion_planner.go:56-69 | at most the target, the next start, the cornering velocity and the end velocity, and equal to one of them; the next movement may be any movement, one of zero length included |
| Planner.NoCornerStops | motion_planner.go:29-31 | before a straight movement that stays where it is (a feed-only line such as `G1 F500`), the cornering velocity is 0 and the junction velocity at most 0 |
| Planner.Reachable | motion_planner.go:51 | the reachable velocity sqrt(v^2 + a*d), without a factor 2, is never negative |
| Planner.MaxEndVelocity | motion_planner.go:44-54 | the maximum end velocity is never negative |
| Planner.MaxStartVelocity | motion_planner.go:71-78 | the maximum start velocity is never negative |
| Planner.EndAndStartAgree | motion_planner.go:44-78 | the end and start rules are the same relation |
| Planner.SameGeometriesDefined | motion_planner.go:159-189 | lists with the same geometry are defined alike |
| Planner.Prepared | motion_planner.go:164-168 | the target is limited and the end is set to the velocity reachable from the start; nothing else changes |
| Planner.Correction | motion_planner.go:179-183 | the correcting branch changes only movement i, and lowers its start velocity strictly |
| Planner.Commit | motion_planner.go:184-188 | the committing branch changes only movements i and i+1; movement i ends and movement i+1 starts at the junction velocity; that velocity is within movement i's target and reachability limits; i+1's start never rises |
| Planner.Step | motion_planner.go:161-188 | one iteration keeps every position and the geometry, touches only movements i and i+1, never raises a start or target velocity, and steps back on a correction and forward on a commit; a movement starting at rest is never corrected |
| Planner.StepOutcome | motion_planner.go:174-188 | both branches of the decision, spelled out |
| Planner.StepKeepsJoined | motion_planner.go:159-189 | a step keeps every junction behind the new index planned |
| Planner.VelocityPass | motion_planner.go:156-189 | with the first start pinned to 0, the index never leaves the list, the first movement stays at rest, geometry is kept, no velocity rises, and the planned prefix grows |
| Planner.PassStep | motion_planner.go:159-189 | one turn of the loop continues the walk from the step it takes |
| Planner.Profilable | motion_planner.go:117-121 | the profile divides by twice the acceleration limit along the movement, which must be non-zero; every arc is profilable when the per-axis limits are positive |
| Planner.ChangeDistance | motion_planner.go:118-121 | (w^2 - v^2) / 2a is not positive when the new velocity is no faster |
| Planner.NeedsReduction | motion_planner.go:117-127 | the guard never holds for a movement whose target is no faster than its start and its end |
| Planner.ReducedFeedrate | motion_planner.go:130-143 | the formula as written, sqrt(2ad) + v0^2, is at least v0^2 |
| Planner.ReducedTarget | motion_planner.go:130-143 | the reduced target of a movement is at least the square of its start velocity |
| Planner.Profile | motion_planner.go:113-150 | the profile changes only the target, and only under its guard (acceleration plus deceleration distance exceeding the length, lines 117-127), where it writes the reduced feed rate of lines 130-143 |
| Planner.ReducedTargetIgnoresTarget | motion_planner.go:130-143 | the reduced feed rate does not depend on the old target |
| Planner.ProfileIdempotent | motion_planner.go:113-150 | profiling a movement twice is profiling it once |
| Planner.ProfilePass | motion_planner.go:191-196 | the profiling loop applies the profile to every movement and changes only targets |
| Planner.ProfilePassIdempotent | motion_planner.go:191-196 | profiling the whole list twice is profiling it once |
| Planner.Pin | motion_planner.go:156 | the first movement starts at rest and nothing else changes |
| Planner.Walked | motion_planner.go:156-189 | the walk keeps geometry and the ability to profile every movement |
| Planner.JoinedIgnoresTargets | motion_planner.go:191-196 | the profile, which only touches targets, keeps the planned junctions |
| Planner.WalkedProperties | motion_planner.go:156-189 | after the walk the first movement is at rest, no later start velocity has risen, and the junctions behind the index are planned |
| Planner.Plan | motion_planner.go:152-196 | `run` keeps the geometry of every movement and the ability to profile it; the profile after the walk changes only targets, so the start and end velocities are those the walk left |
| Planner.PlanProperties | motion_planner.go:152-196 | what `run` leaves: the same geometry, the first movement at rest, no rising start velocity, and every junction the walk passed has continuity and reachability |
| Planner.Param | motion_planner.go:85 | a missing parameter letter reads as 0 |
| Planner.NewMovementState | motion_planner.go:83-109 | G0 to G3 create a movement, and nothing else does; G0 uses the rapid velocity and the others use F; it is an arc exactly for G2 and G3, clockwise exactly for G2, always about Z |
| Planner.Dispatched | motion_planner.go:82-110 | at most one movement per command |
| Planner.DispatchedConcat | motion_planner.go:82-110 | the commands are dispatched in order |
| Planner.DispatchedAll | motion_planner.go:82-110 | every command creates a movement exactly when all commands are G0 to G3 |
| Planner.DispatchedStep | motion_planner.go:82-110 | one more command appends its movement, if it creates one |
| Planner.Chain | command_list.go:18-24 | chaining changes only start positions |
| Planner.ChainAppend | command_list.go:18-24 | one more movement starts where the chain ends |
| Planner.ChainConcat | motion_planner.go:82-110 | chaining one command more extends the chain of the commands before it |
| Planner.ChainExtend | motion_planner.go:82-110 | one iteration of `fromParsedGcode` extends the chained prefix |
| Planner.ChainIsPath | command_list.go:18-24 | a chain from the origin is a path |
| Planner.MotionPlanner.constructor | motion_planner.go:15-17 | a new planner has an empty, valid command list |
| Planner.MotionPlanner.NewMovement | motion_planner.go:83-105 | a fresh movement object for exactly the movement commands, in the state `NewMovementState` describes |
| Planner.MotionPlanner.AddCommand | motion_planner.go:83-109 | a movement command appends its movement, chained after the path; any other command changes nothing; the list invariant is kept |
| Planner.MotionPlanner.FromParsedGcode | motion_planner.go:80-111 | the list grows by the chained movements of the commands, in order; previous_position is the end of the chain; the invariant is kept |
| Planner.MotionPlanner.PrepareAt | motion_planner.go:164-168 | movement i becomes `Prepared` and no other movement changes |
| Planner.MotionPlanner.JoinAt | motion_planner.go:185-186 | movement i ends and movement i+1 starts at the junction velocity |
| Planner.MotionPlanner.IterateOnce | motion_planner.go:161-188 | one iteration on the objects is exactly `Step` on their snapshots, including the next index |
| Planner.MotionPlanner.CalculateFeedrateProfile | motion_planner.go:113-150 | the movement ends as `Profile` says |
| Planner.MotionPlanner.ProfileAt | motion_planner.go:194 | profiling movement k changes only snapshot k |
| Planner.MotionPlanner.WalkVelocities | motion_planner.go:158-189 | the loop leaves the list as `VelocityPass` says |
| Planner.MotionPlanner.ProfileAll | motion_planner.go:191-196 | the loop leaves the list as `ProfilePass` says |
| Planner.MotionPlanner.PlanMovements | motion_planner.go:156-196 | the list ends as `Plan` says |
| Planner.MotionPlanner.Run | motion_planner.go:152-196 | `run` plans the list in place, as `Plan` says |
| GCode.Word | gcode_parser.go:60 | the longest prefix without white space |
| GCode.Fields | gcode_parser.go:60 | `strings.Fields`: every field is non-empty and free of white space |
| GCode.WordOf | gcode_parser.go:60 | a word followed by white space is the first word |
| GCode.FieldsJoin | gcode_parser.go:60 | round trip: splitting non-empty words joined by blanks gives the words back |
| GCode.SpanStart | gcode_parser.go:123 | the first index not in leading white space |
| GCode.SpanEnd | gcode_parser.go:123 | the index after the last character not in trailing white space |
| GCode.TrimSpace | gcode_parser.go:123 | `strings.TrimSpace`: the slice with no white space at either end, and only white space outside it |
| GCode.TrimSpaceIdempotent | gcode_parser.go:123 | trimming twice is trimming once |
| GCode.HasPrefix | gcode_parser.go:66 | `strings.HasPrefix`: the prefix matches character by character, and the text is the prefix followed by the rest |
| GCode.Skipped | gcode_parser.go:123-126 | blank lines and lines starting with `;`, `(` or `%` are skipped; a line that is not skipped and starts with a non-space character, as a trimmed line does, has a first token, so `parseCommand` never reports an empty line for it |
| GCode.Lookup | gcode_parser.go:97-103 | a letter absent from the parameters reads as 0 |
| GCode.CommandOf | gcode_parser.go:93-107 | exactly G0 to G3 yield a record, of that command, filled with X, Y, Z, and F, I, J where applicable (no K); any other command, the empty one included, is an unsupported-command error |
| GCode.TokenError | gcode_parser.go:78-85 | a token is acceptable exactly when it has at least 2 characters and its value parses |
| GCode.Overrides | gcode_parser.go:77-88 | the keys a line's tokens set are exactly their first letters |
| GCode.AssignSucceeds | gcode_parser.go:77-88 | the token loop succeeds exactly when every token is acceptable |
| GCode.Assign | gcode_parser.go:72-88 | on success every parameter of lastParams is kept and every token's letter is set; on failure the error is that of one of the tokens |
| GCode.AssignOverrides | gcode_parser.go:72-88 | when it succeeds, the parameters are lastParams overridden by the line's tokens |
| GCode.AssignFirstError | gcode_parser.go:77-85 | the loop stops with the error of the first bad token |
| GCode.LaterTokenWins | gcode_parser.go:77-88 | among tokens for the same letter, the last one wins |
| GCode.Split | gcode_parser.go:65-70 | a first token starting with G is the command and is consumed; otherwise the command is lastCmd and every token is a parameter |
| GCode.ParseLine | gcode_parser.go:59-108 | a produced record is of the command now remembered; the state changes only on success or an unsupported command |
| GCode.ParseLineCases | gcode_parser.go:59-108 | a blank line is an empty-line error with the state kept; with all tokens acceptable, the state becomes this line's command and overridden parameters, even when the command is then unsupported; otherwise the first bad token's error, with the state kept |
| GCode.ModalLine | gcode_parser.go:65-67 | a line without a command word keeps the modal command |
| GCode.ParseLineRepeat | gcode_parser.go:59-108 | parsing the same line again gives the same outcome and state |
| GCode.Feed | gcode_parser.go:123-134 | a line contributes at most one command, and a skipped line contributes nothing and keeps the state |
| GCode.ParseLines | gcode_parser.go:122-135 | no more commands than lines |
| GCode.CommentsOnly | gcode_parser.go:123-126 | a file of blank and comment lines yields nothing and keeps the parser's state |
| GCode.ParseLinesConcat | gcode_parser.go:122-135 | parsing two pieces of a file in turn is parsing the whole |
| GCode.GCodeParser.constructor | gcode_parser.go:18-21 | a new parser has an empty command, no parameters and zero position and feed |
| GCode.GCodeParser.ParseCommand | gcode_parser.go:59-108 | the imperative `parseCommand` returns and leaves the state `ParseLine` says |
| GCode.GCodeParser.Parse | gcode_parser.go:110-135 | the scanning loop returns the commands and leaves the state `ParseLines` says |

## Left out

- Floating point: every quantity is an exact `real`. There is no rounding, NaN or IEEE infinity. The one +Inf the planner relies on, a radius of tolerance·sin/0, is `Planner.Bound.Unbounded`.
- `math.Sqrt`, `math.Acos`, `math.Sin`, `math.Pow` and `math.Pi` are not computed. They are fields of an oracle, and only the facts in `Numerics.Lawful` are assumed about them. No property depends on their concrete values.
- Divisions by zero are excluded by preconditions and are not modelled as NaN or Inf. These are `Dispatch.Defined`, the `Length(..) != 0.0` requirements, and `Planner.Profilable` (a non-zero acceleration limit along the movement).
- The planner methods require `Machine.Positive`: a positive tolerance and positive per-axis accelerations. Go's behaviour with zero or negative limits is not modelled.
- Planner.MotionPlanner.Run: the walk runs for at most `fuel` iterations. Go guarantees no termination and gives no decreasing measure. When the fuel runs out before the index reaches the last movement, the remaining junctions are left as they are. `PlanProperties` covers only the junctions behind the index.
- Planner.MotionPlanner.Run: requires a non-empty list; Go panics on an empty one at line 156. It also requires the movement objects to be distinct, which `Commands.ValidListIsPath` gives for lists built by `AddMovement`. Aliased movements are not modelled.
- Planner.PlanProperties: states no bound on the profiled target. The formula at motion_planner.go:143, sqrt(2ad) + v0^2, promises none, and the formula is modelled as written.
- Printing: the dump at the end of `run` (motion_planner.go:198-202), `CommandList.print`, the `String` and `Execute` methods, and the error messages `Parse` prints are left out.
- GCode.GCodeParser.Parse: takes the lines of the file as a sequence and returns the commands. It does not open a file, check scanner errors or execute the commands. bufio's 64 KiB line limit is not modelled.
- `strconv.ParseFloat` is an oracle parameter.
- Strings are sequences of characters, not bytes. `len(token)`, `token[1:]` and `string(token[0])` therefore agree with Go only when the token's first character is ASCII. Invalid UTF-8 is not modelled.
- The Go type `GCodeCommand` that `fromParsedGcode` consumes is not defined in the repository. `Planner.GCodeCommand` is the shape its uses require: a command word and a map of parameters.
- main.go is not part of this model.
- movement.go has no behaviour. It is modelled only as the operations `Dispatch` forwards to the two classes.
- Getters are read through `State()` snapshots rather than as separate methods.
- `GCodeParser.previous_position` and `previous_feedrate` are fields that the parser never reads or writes after construction. The model keeps them and proves they are unchanged.
- `Vectors.Rotate90` has no counterpart of Go's fall-through `return v` (vector3d.go:78), because `Axis` has only three values.
- `Commands.CommandList.AddMovement` appends before it sets the start position. Go does it the other way round. The two orders are equivalent, because the end position, which previous_position takes, is not changed by the setter.
- The helpers `AddCommand`, `NewMovement`, `PrepareAt`, `JoinAt`, `IterateOnce`, `WalkVelocities`, `ProfileAt`, `ProfileAll` and `PlanMovements` are the bodies of Go's loops and statement groups, named so that each can carry its own contract. The `...At` setters of `Dispatch` are the interface setters applied to one element of the movement list.
