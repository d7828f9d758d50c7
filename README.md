# Boids, modelled in Dafny

A model of the flocking core of a small macroquad "boids" program. The
program has three variants:

- `src/main.rs`: a 2D flock of triangles on a fixed 1/60 s time step.
- `src/boids2d.rs`: the same 2D flock on a variable step. Each boid leaves a fading trail.
- `src/boids3d.rs`: a 3D flock of short segments in a cube. A free-flying camera repels the boids it comes close to.

`boids2d.rs` and `boids3d.rs` run one flocking pass per frame; `main.rs` runs
one pass per whole 1/60 s accumulated, which may be none or several in a
frame (`FixedStep`). The pass visits the boids in index order
and updates each one in place. For each boid it:

1. Borrows the boid apart from all the others (`split_one_mut`).
2. Scans the others, summing neighbours inside a cohesion radius and separation offsets inside a smaller radius.
3. Applies separation. It applies cohesion and alignment only when there is a neighbour.
4. Applies boundary nudges and caps the speed.
5. Moves the boid.
6. Re-orients its shape.

A boid's turn sees the earlier boids already moved and the later ones not yet.

`main.rs` and `boids2d.rs` duplicate the 2D boid, `Boid::new`,
`Boid::rotate` and the 2D pass line for line. One 2D model (`Flock2D`)
serves both, and the table below cites whichever copy fits a row best.
`split_one_mut` appears in all three files, and one model (`SplitOne`) serves
all of them.

Modules:

- **`Vectors`**: real 2D and 3D vectors. It also holds `Numerics`, a record of the primitives the program takes from its math library: `cos`, `sin`, `atan2`, `clamp_length_max` and `normalize`. Their laws are stated as predicates (`UnitCircleAt`, `ParityAt`, `ClampLaw2`, `ClampLaw3`, `NormalizeLaw3`) and required only by the lemmas that use them.
- **`SplitOne`**: `split_one_mut` on sequences, and the in-order pass built on it (`Turns`). The pass facts that do not depend on the boid (which slot a turn changes, what it reads) are stated there once for both flocks.
- **`Flock2D`**:
  - the 2D boid, `Boid::new` and `Boid::rotate`;
  - the pass, given first as specification functions (`Scan`, `Steer`, `Nudge`, `Update`, `Pass`);
  - then the in-place methods proved against them (`ScanOthers`, `Turn`, `FlockPass`).
- **`FixedStep`**: the time accumulator of `main.rs`.
- **`Trails`**: the trail histories of `boids2d.rs` and the segments drawn from them.
- **`Flock3D`**: the 3D boid and pass, in the same two layers as `Flock2D`.
- **`Camera3D`**: the clamped look angles and the `x`/`switch` oscillator of `boids3d.rs`.

Lengths are compared as squares: `length() < R` is `DistSq < R * R`.

Notes on what the code does:

- A trail holds up to 21 entries, not 20. The history is cut to 20 and then the new centroid goes in front.
- The drawing loop runs `bh` over `0 .. len - 2`. It draws the links between entries `bh` and `bh + 1`, so the oldest link (`len - 2 -> len - 1`) is never drawn.
- Alignment is computed from the velocity that already includes cohesion.
- Take two resting boids 10 apart at (0, 0) and (10, 0). They are inside the separation radius as well as the cohesion radius. The boid at the origin therefore gets velocity (-0.4275, 0), not the cohesion-only 0.05 (`Flock2D.TwoRestingBoids`).

## Model

| member | source | states |
|---|---|---|
| SplitOne.SplitOneMut | src/main.rs:22-33 | Requires `i < \|s\|`: the first cut panics when `i > \|s\|` and the second, on an empty rest, when `i == \|s\|`. The current element is `s[i]`. There are `\|s\|-1` others, and they are `s[j]` for `j < i` and `s[j+1]` beyond, in order. |
| SplitOne.SplitOneMutOthers | src/boids2d.rs:18-25 | The others are exactly `s[..i] + s[i+1..]`, so the borrowed index never appears among them. |
| SplitOne.SplitOneMutReassembles | src/boids3d.rs:18-25 | Putting the current element back between the two halves gives the original slice. |
| SplitOne.TurnAt | src/main.rs:112-154 | Definition, no contract: turn `i` computes the new element from `split_one_mut(i)`. Stated by `SplitOne.TurnSeesUpdatedPrefix` and, per variant, by `Flock2D.Turn` and `Flock3D.Turn`. |
| SplitOne.Turns | src/main.rs:111-155 | The slice after turns `0 .. k-1` has the length of the slice. Its order and frame are stated by `SplitOne.TurnsFrame` and `SplitOne.TurnSeesUpdatedPrefix`. |
| Flock2D.NewBoid | src/main.rs:57-67 | `Boid::new` sets the centroid to the mean of the three points and the angle to 90 degrees. The points and the (given) velocity are kept. |
| Flock2D.Spawn | src/main.rs:97-104 | A start-up triangle at `pos` satisfies the centroid-is-mean invariant. Its centroid is `(pos.x + 5, pos.y - 5)`. |
| Flock2D.RotateAbout | src/main.rs:72-76 | Definition, no contract: one point turned about the centroid, `(dx*c + dy*s, -dx*s + dy*c)` plus the centroid. Stated by `Flock2D.RotatePoint`, `Flock2D.RotateAboutKeepsDistance` and `Flock2D.RotateAboutUndo`. |
| Flock2D.Rotated | src/main.rs:68-89 | Definition, no contract: `rotate` as a value. Stated by `Flock2D.Rotate`, `Flock2D.RotatedKeepsCentroidMean`, `Flock2D.RotatedKeepsShape` and `Flock2D.RotateRoundTrip`. |
| Flock2D.Rotate | src/main.rs:68-89 | The field-by-field `rotate`, with its saved x offset, equals a rotation of each point about the centroid by `r_angle - angle`. Afterwards the angle is `r_angle`. |
| Flock2D.RotatePoint | src/main.rs:72-76 | The two in-place statements for one point, with the x offset saved before `x` is overwritten, rotate that point about the centroid. |
| Flock2D.RotatedKeepsCentroidMean | src/boids2d.rs:50-71 | Rotation keeps the centroid, the velocity and the centroid-is-mean invariant for any `cos`/`sin` values, and records the new angle. |
| Flock2D.RotatedKeepsShape | src/main.rs:68-89 | When `cos^2 + sin^2 = 1` at the turn angle, every point keeps its squared distance to the centroid. |
| Flock2D.RotateRoundTrip | src/boids2d.rs:50-71 | Rotating to a heading and then back to the old angle restores the boid, given the unit-circle and parity laws of `cos`/`sin`. |
| Flock2D.Integrated | src/main.rs:149-152 | Definition, no contract: the centroid and the three points move by the velocity. Stated by `Flock2D.IntegratedKeepsCentroidMean`. |
| Flock2D.IntegratedKeepsCentroidMean | src/main.rs:149-152 | Translating the centroid and all three points by the same velocity keeps the centroid the mean. |
| Flock2D.Accumulate | src/main.rs:119-126 | Definition, no contract: one step of the scan over one other boid. Stated through `Flock2D.Scan` and `Flock2D.ScanOthers`. |
| Flock2D.Scan | src/main.rs:118-127 | The neighbour count is at most the number of others. It is 0 iff no other boid is within 75, and it equals the number of others iff all are within 75. With no neighbour, all sums are zero. |
| Flock2D.SeparationOnlyFromNeighbours | src/boids2d.rs:101-110 | Every boid closer than 25 is also closer than 75. |
| Flock2D.Steer | src/main.rs:128-134 | Definition, no contract: separation, then cohesion and alignment when `nbrs > 0`. Stated by `Flock2D.NoNeighbourNoSteering`, `Flock2D.OneNeighbourSteer` and `Flock2D.TwoRestingBoids`. |
| Flock2D.NoNeighbourNoSteering | src/boids2d.rs:101-117 | With no neighbour, separation, cohesion and alignment leave the velocity unchanged. |
| Flock2D.OneNeighbourSteer | src/main.rs:118-134 | A single other boid at a distance in [25, 75) gives no separation, plus cohesion towards it and alignment with it. |
| Flock2D.TwoRestingBoids | src/main.rs:118-134 | Two resting boids at (0,0) and (10,0): the first one's steered velocity is (-0.4275, 0). |
| Flock2D.Nudge | src/main.rs:135-147 | The margin nudges change an axis only when its coordinate is strictly within 80 of an edge. Each axis changes by at most 1. |
| Flock2D.NudgeTowardsInside | src/boids2d.rs:118-130 | On a screen at least two margins wide and tall, a coordinate below 80 gets exactly +1 and one beyond `size - 80` gets exactly -1, per axis. |
| Flock2D.NudgeAxesIndependent | src/boids2d.rs:118-130 | The x nudge depends only on x quantities and the width. The y nudge depends only on y quantities and the height. |
| Flock2D.Heading | src/main.rs:153 | Definition, no contract: the heading `-(v.y).atan2(v.x)` handed to `rotate`. Used by `Flock2D.Update`. |
| Flock2D.Update | src/main.rs:112-154 | Definition, no contract: one boid after its turn, given the others as it sees them. Stated by `Flock2D.UpdateCapsSpeed`, `Flock2D.UpdateKeepsCentroidMean` and `Flock2D.Turn`. |
| Flock2D.BoidTurn | src/main.rs:112-154 | Definition, no contract: `Flock2D.Update` as the turn of `SplitOne.Turns`. |
| Flock2D.UpdateAt | src/main.rs:112-154 | Definition, no contract: boid `i` after its turn, when the flock stands at `s`. Stated by `Flock2D.Turn`. |
| Flock2D.Pass | src/main.rs:111-155 | Definition, no contract: the whole pass, `Turns(s, \|s\|, BoidTurn)`. Stated by `Flock2D.FlockPass`, `Flock2D.PassCapsSpeed`, `Flock2D.PassKeepsCentroidMeans` and `SplitOne.TurnsFrame`. |
| Flock2D.UpdateCapsSpeed | src/main.rs:148 | After a turn, the speed is at most 5.5 (squared length at most 5.5^2) when the clamp obeys its law. |
| Flock2D.PassCapsSpeed | src/boids2d.rs:131 | After a whole pass, every boid moves at speed at most 5.5. |
| Flock2D.UpdateKeepsCentroidMean | src/main.rs:148-154 | Clamp, translation and re-orientation keep the centroid the mean of the triangle. |
| Flock2D.PassKeepsCentroidMeans | src/boids2d.rs:94-138 | A pass, or any prefix of it, keeps every centroid the mean of its triangle. |
| SplitOne.TurnsFrame | src/main.rs:111-155 | Turn `i` of a pass changes element `i` only. After `k` turns, elements from `k` on are untouched and each earlier element holds the value its own turn gave it. The 2D and 3D passes are both `Turns`, so this holds for both. |
| SplitOne.TurnSeesUpdatedPrefix | src/main.rs:111-112 | Turn `i` reads element `i` as it was before the pass, the elements before `i` as the whole pass leaves them, and the elements after `i` as they were. |
| Flock2D.NeighbourCountBound | src/main.rs:118-127 | The neighbour count of any turn is at most `\|boids\| - 1`. |
| Flock2D.ScanOthers | src/main.rs:118-127 | The running-sum loop over the others computes exactly `Scan`. |
| Flock2D.Turn | src/main.rs:112-154 | One in-place turn writes `UpdateAt(old, i)` to slot `i` and nothing else. |
| Flock2D.FlockPass | src/boids2d.rs:94-138 | The in-place pass leaves the array equal to `Pass` of its old contents. |
| FixedStep.Iterate | src/main.rs:109-110 | Definition, no contract: a function applied `k` times. Stated by `FixedStep.IterateAdd`. |
| FixedStep.IterateAdd | src/main.rs:109-110 | `j` applications followed by `k` more are `j + k` applications. |
| FixedStep.Passes | src/main.rs:109-155 | Definition, no contract: the flock after `k` whole passes. Stated by `FixedStep.FixedStepFrame`, `FixedStep.RunFixedStep` and `FixedStep.PassesKeepCentroidMeans`. |
| FixedStep.FixedStepFrame | src/main.rs:107-110 | With non-negative `time_left` and frame time, the inner loop terminates. The leftover is in `[0, 1/60)`, leftover plus passes/60 equals the time accumulated, and the flock has had exactly that many passes. |
| FixedStep.PassesAreWholeSteps | src/main.rs:109-110 | The number of passes is the floor of the accumulated time times 60. |
| FixedStep.RunFixedStep | src/main.rs:95-110 | Over a run of frames starting from `time_left = 0`, the leftover stays below one step. Leftover plus passes/60 is the total frame time, and the flock has had that many passes. |
| FixedStep.PassesKeepCentroidMeans | src/main.rs:107-155 | Any number of passes keeps every centroid the mean of its triangle. |
| Trails.Truncate | src/boids2d.rs:140 | `truncate(len)` keeps the first `min(len, \|h\|)` entries. |
| Trails.Recorded | src/boids2d.rs:139-142 | After `truncate(20)` and `insert(0, c)`, a history has `min(\|h\|, 20) + 1 <= 21` entries. Its head is `c` and its tail is a prefix of the old history. |
| Trails.NewHistories | src/boids2d.rs:76 | There are exactly 100 empty histories. |
| Trails.RecordTrails | src/boids2d.rs:139-142 | Every history indexed by a boid becomes `Recorded(old, centroid)`. Histories past the boid count are untouched. |
| Trails.Frame | src/boids2d.rs:94-142 | One frame is a flocking pass followed by the history update. Afterwards every trail starts at its boid's new centroid, and the 21-entry bound is kept. |
| Trails.Alpha | src/boids2d.rs:159 | `255 - (bh * 10) as u8` with the cast's wrap-around written out. It is never above 255. |
| Trails.AlphaFades | src/boids2d.rs:151-160 | For `bh <= 18` the cast does not wrap, and the alpha is `255 - 10 bh >= 75`. |
| Trails.TrailSegments | src/boids2d.rs:151-162 | A trail with more than two entries gives `len - 2` segments `h[k] -> h[k+1]` with alpha `Alpha(k)`, and shorter trails give none. All indices are in range. |
| Trails.RecordedTrailAlphas | src/boids2d.rs:139-160 | On every recorded trail, each drawn segment's alpha is `255 - 10 k` and at least 75. |
| Flock3D.Spawn | src/boids3d.rs:61-67 | A start-up boid's position is the midpoint of its segment, and its colour is one of the seven palette colours. |
| Flock3D.Accumulate | src/boids3d.rs:157-164 | Definition, no contract: one step of the scan over one other boid. Stated through `Flock3D.Scan` and `Flock3D.ScanOthers`. |
| Flock3D.Scan | src/boids3d.rs:156-165 | The neighbour count is at most the number of others. It is 0 iff none is within 2.7, and it equals the number of others iff all are. With no neighbour, all sums are zero. |
| Flock3D.SeparationOnlyFromNeighbours | src/boids3d.rs:156-165 | Every boid closer than 0.5 is also closer than 2.7. |
| Flock3D.WithCamera | src/boids3d.rs:167-169 | Definition, no contract: the separation sum plus `(position - camera) * 1.3` when the camera is closer than 0.5. Stated by `Flock3D.NoNeighbourOnlyCamera` and `Flock3D.OneNeighbourSteer`. |
| Flock3D.Steer | src/boids3d.rs:167-176 | Definition, no contract: separation with the camera term, scaled by 0.05, then cohesion 0.001 and alignment 0.05 when `nbrs > 0`. Stated by `Flock3D.NoNeighbourOnlyCamera` and `Flock3D.OneNeighbourSteer`. |
| Flock3D.NoNeighbourOnlyCamera | src/boids3d.rs:167-176 | With no neighbour, only the camera steers. If it is 0.5 or more away the velocity is unchanged; otherwise the velocity gains `(position - camera) * 1.3 * 0.05`. |
| Flock3D.OneNeighbourSteer | src/boids3d.rs:167-176 | A single other boid at a distance in [0.5, 2.7), with the camera 0.5 or more away, gives no separation, then cohesion 0.001 towards it, then alignment 0.05 with it from the velocity that includes cohesion. |
| Flock3D.SoftBound | src/boids3d.rs:179-184 | On one axis, a position at or beyond 8.5 takes 0.005 off the velocity, one at or below -8.5 adds 0.005, and one strictly between leaves it unchanged. |
| Flock3D.Bounded | src/boids3d.rs:177-185 | Each axis of the velocity is bounded from its own axis of the position only. |
| Flock3D.ApplyBounds | src/boids3d.rs:177-185 | The `for axi in 0..3` loop computes `Bounded`. |
| Flock3D.Update | src/boids3d.rs:150-190 | Definition, no contract: one boid after its turn. Stated by `Flock3D.UpdateShape`, `Flock3D.SegmentEndpointsAtDistance` and `Flock3D.Turn`. |
| Flock3D.BoidTurn | src/boids3d.rs:150-190 | Definition, no contract: `Flock3D.Update` as the turn of `SplitOne.Turns`. |
| Flock3D.UpdateAt | src/boids3d.rs:150-190 | Definition, no contract: boid `bi` after its turn, when the flock stands at `s`. Stated by `Flock3D.Turn`. |
| Flock3D.Pass | src/boids3d.rs:149-191 | Definition, no contract: the whole pass, `Turns(s, \|s\|, BoidTurn)`. Stated by `Flock3D.FlockPass`, `Flock3D.PassShape` and `SplitOne.TurnsFrame`. |
| Flock3D.UpdateShape | src/boids3d.rs:186-189 | After a turn, the position is the midpoint of `p1` and `p2` and has moved by the new velocity. The colour is kept, and the speed is at most 0.2 when the clamp obeys its law. |
| Flock3D.SegmentEndpointsAtDistance | src/boids3d.rs:188-189 | With a unit-length `normalize` and a non-zero velocity, both endpoints lie exactly 0.2 from the position. |
| Flock3D.PassShape | src/boids3d.rs:149-191 | After a pass, every boid is the midpoint of its segment and keeps its colour. Every speed is at most 0.2 when the clamp obeys its law. |
| Flock3D.ScanOthers | src/boids3d.rs:156-165 | The running-sum loop over the others computes exactly `Scan`. |
| Flock3D.Turn | src/boids3d.rs:150-190 | One in-place turn writes `UpdateAt(old, bi)` to slot `bi` and nothing else. |
| Flock3D.FlockPass | src/boids3d.rs:149-191 | The in-place pass leaves the array equal to `Pass` of its old contents. |
| Camera3D.ClampPitch | src/boids3d.rs:122-123 | After the two clamps, the pitch is in `[-1.5, 1.5]`. An in-range pitch is unchanged, and one outside is set to the nearer bound. |
| Camera3D.ClampPitchIdempotent | src/boids3d.rs:122-123 | Clamping an already clamped pitch changes nothing. |
| Camera3D.Look | src/boids3d.rs:119-123 | The yaw turns by `dx * delta * 0.14`. The new pitch is always in `[-1.5, 1.5]`, and without vertical motion it is the clamped old pitch. |
| Camera3D.Oscillated | src/boids3d.rs:135-138 | `x` steps by +0.04 when `switch` is set and by -0.04 otherwise. `switch` flips iff the new `x` is at or beyond a bound of 8. |
| Camera3D.OscillatedKeepsInvariant | src/boids3d.rs:135-138 | One step keeps the invariant: moving up, `-8.04 < x < 8`; moving down, `-8 < x < 8.04`. |
| Camera3D.Oscillate | src/boids3d.rs:135-138 | The two statements of the frame loop compute `Oscillated`. |
| Camera3D.OscillatorAfter | src/boids3d.rs:71-72 | Definition, no contract: the oscillator after `k` frames from `x = 0`, `switch = false`. Stated by `Camera3D.OscillatorBounded` and `Camera3D.RunOscillator`. |
| Camera3D.OscillatorBounded | src/boids3d.rs:71-73 | From the start-up state `x = 0`, `switch = false`, the invariant holds after any number of frames, so `\|x\| < 8.04`. |
| Camera3D.RunOscillator | src/boids3d.rs:135-138 | Running the oscillator for any number of frames from start-up gives `OscillatorAfter(frames)`, with `\|x\| < 8.04`. |

## Left out

- Rendering and windowing are not modelled. This covers `draw_triangle`, `draw_line`, `draw_line_3d`, `draw_cube_wires`, `clear_background`, `set_camera`, the window configuration and `next_frame`. They are calls into macroquad.
- Keyboard and mouse input are not modelled (key polling, `Escape` to leave, cursor grab). The mouse motion and the frame time enter as parameters (`Camera3D.Look`, `FixedStep.FixedStepFrame`).
- Random start-up values are parameters: positions and velocities from `gen_range`, and colours from `colors.choose()`. `Flock2D.Spawn` and `Flock3D.Spawn` take them as arguments.
- `f32`/`f64` rounding and NaN are not modelled; all arithmetic is on reals. So `1/60` is exact, and `90.0_f32.to_radians()` is written as its `f32` value `1.57079637050628662109375`.
- `cos`, `sin`, `atan2`, `clamp_length_max` and `normalize` are abstract. Their values are not modelled, only the laws the lemmas require.
- Flock3D.SegmentEndpointsAtDistance: requires a non-zero velocity, because `normalize` of a zero vector is NaN in the program and its endpoints then have no distance.
- The 3D camera basis (`front`, `right`, `up`) and camera movement (`MOVE_SPEED`) are not modelled; they are trigonometry and cross products. The camera position enters `Flock3D.FlockPass` as a parameter.
- The 3D frame loop is not modelled as one method. Its parts are: the look update (`Camera3D.Look`), the oscillator (`Camera3D.Oscillate`) and the pass (`Flock3D.FlockPass`). Camera movement sits between them and is left out as above.
- The `boid_count as f32 ... as usize` round trip is not modelled. For 100 boids it is exact, and the pass runs over the whole array.
- Screen size is a parameter (`Screen`), not a query.
- Every variant mutates the borrowed slot in place, through the `&mut` that `split_one_mut` returns; that includes `rotate`, which takes `&mut self`. The model's `Turn` builds the new value in a local and writes it to slot `i` once. This is equivalent because the others never include index `i` (`SplitOne.SplitOneMutOthers`), so nothing reads the slot during the turn. The individual in-place writes to the slot are therefore not modelled one by one.
