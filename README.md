# Koules.rs player steering, modelled in Dafny

This models the steering of the single player ball in Koules.rs (`src/main.rs`).
The player has a compass heading `direction` in degrees, where 0 faces world +y and angles grow clockwise, and an x/y position.
Two per-tick updates change that state:

- The keyboard update (`keyboard_movement`) turns the heading by 3 degrees for Right (+) and Left (-) and does not wrap it afterwards.
  It then moves the ball along the new heading, scaled by a thrust of +1 (Up), -1 (Down alone) or 0.
- The pointer update (`mouse_movement`) applies only while the left mouse button is held, and only outside the dead zone.
  It computes the desired compass direction `360 - atan2 + 90`, wrapped once.
  It takes the difference to the current heading, corrected once to the short way round.
  It turns by that difference when it is within 3 degrees, and by exactly 3 degrees otherwise.
  It wraps the heading once and moves `SPEED` along it.

Everything is in `koules.dfy`, module `Koules`.
`Player` is a class with fields `direction`, `x` and `y`.
Its methods `KeyboardMovement` and `MouseMovement` update those fields in place. `KeyboardMovement` follows the source branch by branch. `MouseMovement` keeps the source's button gate and dead-zone early return, then computes the desired direction, difference, turn and wrap through the helper functions below, each of which follows one block of the source.
Each method is proved against pure functions: `KeyboardHeading`, `Thrust`, `NormalizeDesired`/`DesiredDirection`, `ShortestDiff`, `TurnStep`, `WrapHeading` and their composition `TurnToward`.
The lemmas about those functions carry the steering properties.
`SameAngle(a, b)` means that `a - b` is a whole multiple of 360, i.e. the two values name the same compass direction.

Numbers are Dafny `real`s, so there is no f32 rounding.
Sine, cosine and atan2 (in degrees) are uninterpreted: they are function values in a `Trig` record passed to the updates.
The atan2 function has a subset type whose only property is that every result lies in [-180, 180].
Key state, the mouse button and the pointer position are parameters of the updates.

The model follows the code as written:

- The keyboard path never renormalizes the heading, so repeated turning leaves [0, 360].
- Up and Down held together give thrust +1, not 0.
- Both wraps are single-step and use strict comparisons, so 360 itself stays 360.
  From a heading within one step (3 degrees) of [0, 360], a pointer tick ends in [0, 360], not [0, 360).
- A heading far outside [0, 360], which the keyboard path can reach, is not restored by the single wrap.
  The once-corrected difference then turns it the long way round: from 1000 toward 90 the ticks give 637, then 274.
- There is no guard against NaN pointer coordinates.

## Model

| member | source | states |
|---|---|---|
| `Koules.Player.constructor` | src/main.rs:40-42 | a new player has heading exactly 0 (`Player::new`); its position is the origin, as `Transform::default()` at src/main.rs:90 gives it |
| `Koules.KeyboardHeading` | src/main.rs:110-116 | Right alone adds exactly 3, Left alone subtracts exactly 3, both or neither leave the heading unchanged; no wrap is applied |
| `Koules.Thrust` | src/main.rs:118-124 | thrust is +1 whenever Up is held (also with Down), -1 when only Down is held, 0 otherwise |
| `Koules.Player.KeyboardMovement` | src/main.rs:104-131 | the new heading is the keyboard turn of the old one; the position moves by (sin, cos) of the NEW heading times SPEED times thrust; with neither Up nor Down the position is unchanged |
| `Koules.NormalizeDesired` | src/main.rs:159-163 | the single wrap shifts by at most one turn, leaves [0, 360] (including 360) alone and maps [-360, 720] into [0, 360] |
| `Koules.DesiredDirectionInRange` | src/main.rs:158-163 | for an atan2 angle a in [-180, 180], the wrapped desired direction lies in [0, 360] and names the same direction as 450 - a |
| `Koules.DesiredDirection` | src/main.rs:158-163 | the compass direction is 450 - bearing for bearings in [90, 180] (so bearing 90 gives 360, left unwrapped) and 90 - bearing for bearings in [-180, 90) |
| `Koules.ShortestDiff` | src/main.rs:166-173 | the corrected difference is desired - heading shifted by at most one turn, unchanged when already in [-180, 180], and in [-180, 180] whenever desired - heading is in [-540, 540] |
| `Koules.ShortestDiffIsShortest` | src/main.rs:166-173 | for heading and desired in [0, 360] the difference lies in [-180, 180], is congruent to desired - heading modulo 360, and is no longer than any of d-h, d-h-360, d-h+360 |
| `Koules.TurnStep` | src/main.rs:176-182 | the heading changes by at most 3; by exactly dif when abs(dif) <= 3; otherwise by exactly +3 or -3 in the sign of dif |
| `Koules.TurnStepResolves` | src/main.rs:166-188 | from any heading, when the shortest difference is within 3, the new heading is heading + dif, which names the desired direction, before and after the wrap |
| `Koules.WrapHeading` | src/main.rs:184-188 | the single wrap shifts by at most one turn, leaves [0, 360] (including 360) alone and maps [-360, 720] into [0, 360] |
| `Koules.TurnToward` | src/main.rs:166-188 | one pointer turn changes the heading by at most 3 degrees, up to one full turn added or removed by the wrap |
| `Koules.TurnTowardOutOfRange` | src/main.rs:166-188 | from heading 1000 toward 90 the difference is corrected only to -550, a tick gives 637 (still out of range), and the next gives 274 |
| `Koules.TurnTowardInRange` | src/main.rs:166-188 | a pointer tick from a heading in [-3, 363] toward a desired direction in [0, 360] ends in [0, 360] |
| `Koules.TurnTowardHolds` | src/main.rs:166-188 | a heading in [0, 360] that already names the desired direction is left unchanged by a pointer tick |
| `Koules.TurnTowardProgress` | src/main.rs:166-188 | for a heading and a desired direction in [0, 360]: farther than 3 from the desired direction, a tick shrinks the remaining shortest difference by exactly 3 and keeps its sign |
| `Koules.Player.MouseMovement` | src/main.rs:140-197 | without the left button, or inside the dead zone (`InDeadZone`: both axis distances to the pointer below SPEED, src/main.rs:151), nothing changes; otherwise the heading becomes the pointer tick toward the desired direction of the pointer's bearing, the ball moves SPEED along the NEW heading with no thrust factor, and a heading in [-3, 363] ends in [0, 360] |
| `Koules.KeyboardThenPointerInRange` | src/main.rs:110-188 | when a keyboard turn and a steering pointer tick fall in the same tick, a heading in [0, 360] ends in [0, 360] |
| `Koules.SteerAlongInRange` | src/main.rs:158-188 | over any sequence of pointer ticks with bearings in [-180, 180], a heading in [0, 360] stays in [0, 360] |
| `Koules.SteerTowardHolds` | src/main.rs:166-188 | for a heading and a desired direction in [0, 360]: once the heading names a fixed desired direction, further pointer ticks leave it unchanged |
| `Koules.SteerTowardConverges` | src/main.rs:166-188 | for a heading and a desired direction in [0, 360]: toward a fixed desired direction, a heading whose shortest difference is at most 3n names that direction after n ticks, within [0, 360] |
| `Koules.EastwardTurn` | src/main.rs:158-188 | a target due east (atan2 0) gives desired direction 90, and thirty ticks from heading 0 reach exactly 90 |
| `Koules.PointerAheadTick` | src/main.rs:145-195 | a fresh player with the pointer straight ahead at (0, 100) gets desired direction 360 (not wrapped) and corrected turn 0, keeps heading 0 and moves SPEED along heading 0 |

## Left out

- Engine plumbing is not modelled: `main`, `KoulesPlugin::build`, `setup_system`, `init_ball`, the `WinSize`/`ClearColor`/`WindowDescriptor`/`Msaa` resources, and camera and shape spawning (src/main.rs:46-102). None of it holds steering logic.
- `cartesian2polar` (src/main.rs:133-138) is not modelled as code. Only its angle is used, and that is the uninterpreted `Trig.atan2Deg`. The magnitude it computes is never read.
- The values of `sin`, `cos` and `to_radians`/`to_degrees` are uninterpreted. So the compass law that heading 0 moves along +y is not proved; it holds only given sin 0 = 0 and cos 0 = 1.
- f32 rounding, NaN and infinity are not modelled. Headings and positions are exact reals.
- `TIME_STEP` and `BBALL_RADIUS` (src/main.rs:22-23) are not modelled; the steering does not use them.
- The two updates are registered one after the other (src/main.rs:74-75) without an explicit ordering. Each is modelled on its own. `KeyboardThenPointerInRange` composes them in that order without claiming the engine guarantees it.
- SteerTowardConverges and EastwardTurn: hold the desired direction fixed across ticks. In the running game the bearing changes as the ball moves; `SteerAlongInRange` covers changing bearings, but only for the range invariant.
- Player.MouseMovement and Player.KeyboardMovement: Bevy's single-entity query is modelled as one `Player` object that owns both the heading and the transform translation.
