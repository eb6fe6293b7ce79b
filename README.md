# ILOS waypoint guidance, modelled in Dafny

This project models the core of `ilos_guidance`. That core is a planar path-following
guidance law for a vehicle. Its parts:

- **Path segments.** A straight line (`src/line.rs`) and a circular arc (`src/circle.rs`).
  Each maps a position to a path parameter theta (`comp_theta`), maps theta back to a point
  (`comp_pos`), and gives the unit tangent at theta (`comp_tangent`).
- **Waypoint path** (`src/waypoints.rs`). It joins consecutive waypoints by lines and rounds
  every interior corner with a fillet circle of a fixed radius. It keeps a cursor: the active
  segment and the waypoint index. `comp_theta` moves the cursor between segments when theta
  crosses the active segment's entry or exit threshold.
- **ILOS controller** (`src/ilos.rs`). ILOS stands for integral line-of-sight. From the
  cross-track error it computes a desired yaw angle and a yaw rate, and it integrates the
  error in an integral state. The yaw rate uses the smallest-signed-angle wrap `ssa`.

Modules:

- `Planar`: 2-D vectors and the rotation matrix S.
- `Trig`: the transcendental functions, as an oracle.
- `LinePath` and `CirclePath`: the two segment kinds.
- `Waypoints`: the fillet construction and the `WaypointPath` class, which holds the cursor.
- `Guidance`: `ssa`, the update law, and the `Ilos` class.

The values are exact reals. `f64::sin`, `cos`, `atan2` and `sqrt` are fields of a
`Trig.Oracle` value passed to every operation that calls them; a `WaypointPath` stores the
oracle it was built with, so its thresholds and its projections use the same functions. Each
property names the laws it needs from the oracle:

- `Pythagorean`: sin² + cos² = 1.
- `Parity`: cos is even and sin is odd.
- `RootLaw`: sqrt is the non-negative root.
- `PolarLaw`: atan2 gives the polar angle.

The two classes take the source's form:

- `WaypointPath` keeps the cursor in mutable fields. The segment tables are constants after
  construction. `CompTheta` is a method proved against the pure switching function `Switch`.
- `Ilos` keeps the yaw angle, yaw rate and integral state in mutable fields. `Update` is
  proved against the pure update law `Step`.

The wrap `ssa` returns values in [-PI, PI), since `ssa(PI) == -PI`: that is what
`modulo(ang + pi, 2 pi) - pi` computes. `Guidance.SsaAtPi` states the half-open end.

## Model

| member | source | states |
|---|---|---|
| Planar.Perp | src/waypoints.rs:35 | S v (the rotation by a quarter turn) is orthogonal to v and has the same length |
| Trig.NormalizeUnit | src/line.rs:31-35 | normalising a vector of unit length returns it unchanged |
| LinePath.New | src/line.rs:14-18 | the line keeps its first point as its reference point |
| LinePath.NewHeadsTowardSecond | src/line.rs:14-25 | a line built from two distinct points heads along the normalised difference, and the second point lies at theta = distance between the points |
| LinePath.CompTheta | src/line.rs:22-25 | the reference point has theta 0 |
| LinePath.Direction | src/line.rs:24-33 | no contract of its own: the heading vector (cos angle, sin angle); `LinePath.DirectionIsUnit` gives its unit length and `LinePath.NewHeadsTowardSecond` its value |
| LinePath.CompTangent | src/line.rs:31-35 | no contract of its own: `LinePath.TangentIsDirection` states that it equals the unit heading for every theta |
| LinePath.CompPos | src/line.rs:27-29 | theta 0 gives the reference point |
| LinePath.DirectionIsUnit | src/line.rs:24-33 | the heading vector (cos angle, sin angle) has unit length |
| LinePath.TangentIsDirection | src/line.rs:31-35 | the tangent does not depend on theta, equals the line's heading, and has unit length |
| LinePath.RoundTrip | src/line.rs:22-29 | comp_theta(comp_pos(theta)) == theta for every theta |
| LinePath.OrthogonalProjection | src/line.rs:22-29 | comp_pos(comp_theta(p)) is the foot of the perpendicular from p: p minus it is orthogonal to the line |
| CirclePath.New | src/circle.rs:14-21 | the direction sign is -1 exactly when the circle is clockwise and +1 otherwise; radius and centre are kept |
| CirclePath.CompTheta | src/circle.rs:25-28 | no contract of its own: q times the polar angle about the centre; `CirclePath.OppositeSenses` and `CirclePath.OnRayThrough` state its meaning |
| CirclePath.CompPos | src/circle.rs:30-32 | no contract of its own: `CirclePath.OnCircle` puts every point on the circle, and `CirclePath.OnRayThrough` relates it to `CirclePath.CompTheta` |
| CirclePath.RawTangent | src/circle.rs:35 | no contract of its own: the tangent before normalisation; `CirclePath.TangentIsUnit` proves it has unit length |
| CirclePath.CompTangent | src/circle.rs:34-37 | no contract of its own: `CirclePath.TangentIsUnit` and `CirclePath.TangentPerpendicular` state that it is the unit tangent orthogonal to the radius |
| CirclePath.OppositeSenses | src/circle.rs:25-28 | a clockwise circle gives the negated theta of the counter-clockwise circle for the same point |
| CirclePath.OnCircle | src/circle.rs:30-32 | for either direction, comp_pos(theta) lies at distance radius from the centre |
| CirclePath.TangentIsUnit | src/circle.rs:34-37 | the tangent (-sin, q cos) already has unit length, so normalising does not change it |
| CirclePath.TangentPerpendicular | src/circle.rs:30-37 | the tangent at theta is orthogonal to the radius to comp_pos(theta) |
| CirclePath.OnRayThrough | src/circle.rs:25-32 | for a point other than the centre, comp_pos(comp_theta(p)) is the point at distance radius on the ray from the centre through p |
| Waypoints.LineOf | src/waypoints.rs:40 | no contract of its own: the line from w[i] to w[i+1]; `Waypoints.LegIsLineDirection` gives its heading, and `Waypoints.WaypointPath.constructor` stores it as line i |
| Waypoints.Leg | src/waypoints.rs:43-46 | no contract of its own: the normalised leg from w[i] to w[i+1]; `Waypoints.LegIsLineDirection` shows it is line i's unit heading |
| Waypoints.Turn | src/waypoints.rs:47-48 | no contract of its own: (S v) · v_next; `Waypoints.Fillet` makes the fillet clockwise exactly when it is negative |
| Waypoints.Signum | src/waypoints.rs:48 | the sign is -1 exactly for negative arguments and +1 otherwise, including 0 |
| Waypoints.FilletOffset | src/waypoints.rs:47 | no contract of its own: the distance d from a waypoint to the fillet's entry and exit points; `Waypoints.LeavesLineBeforeCorner` and `Waypoints.JoinsLineAfterCorner` place the thresholds with it |
| Waypoints.Offset | src/waypoints.rs:43-47 | no contract of its own: `Waypoints.FilletOffset` applied to the normalised legs around waypoint i+1 |
| Waypoints.Entry | src/waypoints.rs:51-61 | no contract of its own: w[i+1] - d v, the point where the fillet leaves line i; `Waypoints.FilletTouchesEntry` puts it on the fillet, tangent to the line |
| Waypoints.Exit | src/waypoints.rs:52-62 | no contract of its own: w[i+1] + d v_next, the point where the fillet joins line i+1; `Waypoints.JoinsLineAfterCorner` measures it on that line |
| Waypoints.LineEnd | src/waypoints.rs:51 | no contract of its own: the entry point measured on line i; `Waypoints.LeavesLineBeforeCorner` gives its value |
| Waypoints.LineStart | src/waypoints.rs:52 | no contract of its own: the exit point measured on line i+1; `Waypoints.JoinsLineAfterCorner` gives its value |
| Waypoints.ArcStart | src/waypoints.rs:61 | no contract of its own: the entry point measured on the fillet; stored as the fillet's lower threshold by `Waypoints.WaypointPath.constructor` |
| Waypoints.ArcEnd | src/waypoints.rs:62 | no contract of its own: the exit point measured on the fillet; stored as the fillet's upper threshold by `Waypoints.WaypointPath.constructor` |
| Waypoints.Fillet | src/waypoints.rs:47-58 | the fillet has the given radius, and it is clockwise exactly when the corner turns right (negative cross product of the legs) |
| Waypoints.LegIsLineDirection | src/waypoints.rs:39-46 | the normalised leg between two distinct waypoints is the heading of the line built on them, and has unit length |
| Waypoints.LeavesLineBeforeCorner | src/waypoints.rs:47-51 | the upper threshold of line i is the leg's length minus the fillet offset d |
| Waypoints.JoinsLineAfterCorner | src/waypoints.rs:47-53 | the lower threshold of line i+1 is the fillet offset d |
| Waypoints.FilletTouchesEntry | src/waypoints.rs:57-61 | the fillet's entry point lies on the fillet circle, and the radius there is orthogonal to the incoming leg, so the circle is tangent to the line |
| Waypoints.WaypointPath.constructor | src/waypoints.rs:27-83 | the path starts on line 1; there is one line per leg and one fillet per interior waypoint; the thresholds are the fillet's entry and exit points measured on each segment; the outer line thresholds are -infinity and +infinity; the oracle used is kept for later projections |
| Waypoints.WaypointPath.SegmentTheta | src/waypoints.rs:109-112 | no contract of its own: comp_theta on the segment a cursor points at, also used at lines 90 and 99; `Waypoints.WaypointPath.CompTheta` is stated with it, and `Waypoints.WaypointPath.PosRoundTripOnLine` inverts it on a line |
| Waypoints.WaypointPath.Switch | src/waypoints.rs:88-106 | after a switch the cursor still indexes an existing segment; the segment either stays or changes kind; leaving a line moves back at most one waypoint, and leaving a fillet moves forward at most one |
| Waypoints.WaypointPath.ForwardOntoFillet | src/waypoints.rs:89-97 | a line hands over to its fillet exactly when theta is above the line's upper threshold |
| Waypoints.WaypointPath.ForwardOntoLine | src/waypoints.rs:98-106 | a fillet hands over to the next line exactly when theta is above the fillet's upper threshold |
| Waypoints.WaypointPath.BackOntoFillet | src/waypoints.rs:91-95 | a line not left forward hands over to the previous fillet exactly when theta is below the line's lower threshold |
| Waypoints.WaypointPath.BackOntoLine | src/waypoints.rs:100-104 | a fillet not left forward hands back to its incoming line exactly when theta is below the fillet's lower threshold |
| Waypoints.WaypointPath.Track | src/waypoints.rs:87-114 | after any sequence of comp_theta calls the cursor is admissible, and it has moved at most one waypoint per call |
| Waypoints.WaypointPath.SingleLegStays | src/waypoints.rs:37-97 | on a path of two waypoints, the infinite thresholds keep the cursor on the single line whatever the positions |
| Waypoints.WaypointPath.CompTheta | src/waypoints.rs:87-114 | only the cursor changes, to the switch decided by theta on the old segment; the theta returned is measured on the new segment; the path invariant is kept |
| Waypoints.WaypointPath.CompPos | src/waypoints.rs:116-122 | no contract of its own: the active segment's comp_pos; `Waypoints.WaypointPath.PosRoundTripOnLine` and `Waypoints.WaypointPath.PosOnActiveFillet` state its properties |
| Waypoints.WaypointPath.CompTangent | src/waypoints.rs:124-130 | no contract of its own: the active segment's comp_tangent; `Waypoints.WaypointPath.TangentIsUnit` states its unit length |
| Waypoints.WaypointPath.PosRoundTripOnLine | src/waypoints.rs:109-122 | on an active line, measuring comp_pos(theta) on the active segment gives theta back |
| Waypoints.WaypointPath.PosOnActiveFillet | src/waypoints.rs:116-122 | on an active fillet, comp_pos(theta) lies on the fillet circle |
| Waypoints.WaypointPath.TangentIsUnit | src/waypoints.rs:124-130 | whichever segment is active, comp_tangent has unit length |
| Guidance.Rem | src/ilos.rs:68 | Rust's f64 remainder with a positive divisor: strictly between -n and n, with the sign of the dividend |
| Guidance.RemTurns | src/ilos.rs:68 | the dividend and its remainder differ by a whole number of divisors |
| Guidance.Modulo | src/ilos.rs:67-69 | the result lies in [0, n) |
| Guidance.ModuloTurns | src/ilos.rs:67-69 | the argument and its modulo differ by a whole number of n |
| Guidance.Ssa | src/ilos.rs:62-65 | the wrapped angle lies in [-PI, PI) |
| Guidance.SsaTurns | src/ilos.rs:62-65 | an angle and its wrap differ by a whole number of full turns |
| Guidance.WrapUnique | src/ilos.rs:62-65 | two angles in [-PI, PI) that differ by whole turns are equal, so the wrap is determined uniquely |
| Guidance.SsaFixed | src/ilos.rs:62-65 | angles already in [-PI, PI) are returned unchanged |
| Guidance.SsaIdempotent | src/ilos.rs:62-65 | wrapping twice is the same as wrapping once |
| Guidance.SsaZero | src/ilos.rs:62-65 | ssa(0) == 0 |
| Guidance.SsaAtPi | src/ilos.rs:62-65 | ssa(PI) == -PI: the range is half-open at +PI |
| Guidance.SsaPeriodic | src/ilos.rs:62-65 | adding a full turn does not change the wrapped angle |
| Guidance.CrossTrackError | src/ilos.rs:43 | no contract of its own: (pos - pos_d) · S tau; `Guidance.CrossTrackDecomposition` shows it is the signed distance along the left normal |
| Guidance.CrossTrackDecomposition | src/ilos.rs:43 | for a unit tangent, pos - pos_d is its along-track component times tau plus the cross-track error times S tau |
| Guidance.Beta | src/ilos.rs:45-53 | no contract of its own: k e + c times the old integral state; `Guidance.MuSteersTowardPath` shows mu steers by it, and `Guidance.StepSteadyState` uses it at zero |
| Guidance.Denominator | src/ilos.rs:46 | sqrt(1 + beta²) is at least 1 and squares to 1 + beta², so the division is always defined |
| Guidance.Mu | src/ilos.rs:44-46 | no contract of its own: the guidance vector; `Guidance.MuOnPath`, `Guidance.MuIsUnit` and `Guidance.MuSteersTowardPath` state its properties |
| Guidance.Heading | src/ilos.rs:49 | no contract of its own: the polar angle of mu; `Guidance.CommandedHeading` shows it points along mu |
| Guidance.AlphaDot | src/ilos.rs:52-53 | no contract of its own: the rate of the integral state; `Guidance.AlphaDotSign` gives its sign |
| Guidance.MuOnPath | src/ilos.rs:44-46 | with no correction (beta = 0) the guidance vector is the tangent itself |
| Guidance.MuIsUnit | src/ilos.rs:44-46 | for a unit tangent the guidance vector has unit length for every beta |
| Guidance.MuSteersTowardPath | src/ilos.rs:44-46 | the guidance vector points forward along the tangent, and its component along S tau is -beta times its forward component |
| Guidance.CommandedHeading | src/ilos.rs:44-49 | the desired yaw points along the guidance vector: (cos yaw, sin yaw) == mu |
| Guidance.AlphaDotSign | src/ilos.rs:52-53 | alpha_dot has the sign of k times the cross-track error, and is zero exactly when that product is zero |
| Guidance.YawRate | src/ilos.rs:50 | yaw_rate * dt is the wrapped difference of the wrapped yaw angles, and lies in [-PI, PI) |
| Guidance.Step | src/ilos.rs:33-55 | no contract of its own: the update law that `Guidance.Ilos.Update` is proved against; `Guidance.YawRate`, `Guidance.StepHoldsIntegral`, `Guidance.StepSteadyState` and `Guidance.StepIntegralDirection` state its properties |
| Guidance.Integrate | src/ilos.rs:54 | no contract of its own: the integral state plus alpha_dot dt; `Guidance.StepHoldsIntegral` and `Guidance.StepIntegralDirection` state how it moves |
| Guidance.StepHoldsIntegral | src/ilos.rs:52-54 | with zero cross-track error the integral state does not change |
| Guidance.StepSteadyState | src/ilos.rs:43-49 | on the path with zero integral state, the desired yaw is the heading of the tangent |
| Guidance.StepIntegralDirection | src/ilos.rs:52-54 | for dt > 0 the integral state rises exactly when k e > 0 and falls exactly when k e < 0 |
| Guidance.Ilos.constructor | src/ilos.rs:22-31 | the yaw angle, yaw rate and integral state start at zero, and the gains are stored |
| Guidance.Ilos.Default | src/ilos.rs:15-19 | the default controller is a fresh one with both gains 1 and zero state |
| Guidance.Ilos.Update | src/ilos.rs:33-55 | exactly the yaw angle, yaw rate and integral state change, to the update law applied to their previous values; the gains are untouched |
| Guidance.Ilos.GetReferences | src/ilos.rs:57-59 | returns the current yaw angle and yaw rate |

## Left out

- Floating point: values are exact reals. Rounding, NaN, infinities as values and signed zero are not modelled. The threshold sentinels -infinity and +infinity are the `Bound` constructors `NegInf` and `PosInf`.
- `f64::sin`, `cos`, `atan2` and `sqrt` are not defined: they are an oracle parameter. Each property states the laws it uses (`Trig.Pythagorean`, `Trig.Parity`, `Trig.RootLaw`, `Trig.PolarLaw`).
- `atan2(0.0, 0.0)` is 0.0 in f64. The oracle leaves that value unconstrained, so the theta of a circle's centre and the heading of a line built from two equal points are unspecified. No property depends on them: the lemmas that need an atan2 value require a non-zero vector; the others hold whatever atan2(0, 0) is.
- Normalising the zero vector gives NaN in the source. The model returns the vector unchanged. Every property that depends on normalisation excludes that case.
- Waypoints.WaypointPath.constructor: requires at least two waypoints, because the source panics indexing `waypoints[1]` otherwise.
- Waypoints.WaypointPath.constructor: requires that no interior waypoint reverses the path (1 + v·v_next ≠ 0). At such a waypoint the source divides by zero and its thresholds become NaN.
- Waypoints.Signum: the sign of -0.0 (-1 in f64) is not distinguished from 0.0.
- Guidance.Rem: modelled only for a positive divisor, the only case `modulo` meets (n = 2π).
- Guidance.Ilos.Update: requires dt ≠ 0. The source divides by dt, and dt = 0 gives an infinite or NaN yaw rate.
- Guidance.Ilos.Update: the product `scalar * S * tau` is modelled as the scalar times S tau. The two are equal over the reals.
- Waypoints.FilletTouchesEntry: tangency is proved at the fillet's entry point. At the exit point only the threshold (`Waypoints.JoinsLineAfterCorner`) is proved, not that the circle passes through it.
- Waypoints.WaypointPath.CompPos and Waypoints.WaypointPath.CompTangent carry no contract of their own. Their properties are the lemmas beside them.
- Waypoints.WaypointPath.Track: repeated `comp_theta` calls are modelled as a function over a sequence of positions, not as a loop over method calls.
- Gains: `src/ilos.rs` never reassigns `k` or `c` after `new`, and `Guidance.Ilos.Update` leaves them out of its frame.
- `src/path.rs` and `src/paths/path.rs` only declare the trait that the segment types implement. The trait is not modelled; each segment's operations are modelled directly.
- `src/zenoh_tools.rs`, `src/bin/ilos_circle.rs`, `src/bin/ilos_waypoints.rs` and `src/lib.rs` are not part of this model. They hold messaging I/O, command-line programs and module wiring.
