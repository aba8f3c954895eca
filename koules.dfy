/** Heading steering of the single player ball of Koules.rs (src/main.rs).

    The player has a compass heading in degrees (0 is world +y, growing
    clockwise) and a position. Each tick the keyboard update turns the heading
    by a fixed step and moves the ball forward or backward; the pointer update,
    while the left mouse button is held and the pointer is outside the dead
    zone, turns the heading by at most one step along the once-corrected
    difference to the pointer's direction, and moves the ball forward at full
    speed.

    Headings and positions are real numbers (no f32 rounding). Sine, cosine and
    atan2 are not interpreted: they are values of a `Trig` record handed to the
    updates, and the only fact used about atan2 is that its result, in degrees,
    lies in [-180, 180].
 */
module Koules {

  /** World units moved per tick (src/main.rs:24). */
  const SPEED: real := 2.0
  /** Degrees turned per tick, by a key or by pointer steering. */
  const TURN_RATE: real := 3.0

  function Abs(r: real): real { if r < 0.0 then -r else r }

  /** `a` and `b` name the same compass direction: they differ by a whole
      number of full turns. */
  ghost predicate SameAngle(a: real, b: real) {
    var turns := (a - b) / 360.0;
    turns.Floor as real == turns
  }

  /** An angle function of `(y, x)` in degrees whose results lie in [-180, 180],
      as `atan2` followed by a conversion to degrees does. */
  type Atan2Deg = f: (real, real) -> real | forall y: real, x: real :: -180.0 <= f(y, x) <= 180.0
    witness (y: real, x: real) => 0.0

  /** The trigonometry the updates use, uninterpreted: sine and cosine of an
      angle given in degrees, and atan2 in degrees. */
  datatype Trig = Trig(sinDeg: real -> real, cosDeg: real -> real, atan2Deg: Atan2Deg)

  /** Which arrow keys are held during one tick. */
  datatype Keys = Keys(right: bool, left: bool, up: bool, down: bool)

  // ---------------------------------------------------------------------------
  // Keyboard steering

  /** The heading after the Right and Left keys of one tick; no wrap follows. */
  function KeyboardHeading(heading: real, right: bool, left: bool): (r: real)
    ensures right && !left ==> r == heading + TURN_RATE
    ensures left && !right ==> r == heading - TURN_RATE
    ensures right == left ==> r == heading
  {
    var turned := if right then heading + TURN_RATE else heading;
    if left then turned - TURN_RATE else turned
  }

  /** The forward/backward factor chosen from the Up and Down keys. */
  function Thrust(up: bool, down: bool): (t: real)
    ensures up ==> t == 1.0
    ensures !up && down ==> t == -1.0
    ensures !up && !down ==> t == 0.0
  {
    if up then 1.0 else if down then -1.0 else 0.0
  }

  // ---------------------------------------------------------------------------
  // Pointer steering

  /** Both axis distances to the pointer are below one tick's travel. */
  predicate InDeadZone(difX: real, difY: real) {
    Abs(difX) < SPEED && Abs(difY) < SPEED
  }

  /** One wrap of a desired direction: negative values gain a turn, values
      strictly above 360 lose one; 360 itself stays. */
  function NormalizeDesired(d: real): (r: real)
    ensures r == d || r == d + 360.0 || r == d - 360.0
    ensures 0.0 <= d <= 360.0 ==> r == d
    ensures -360.0 <= d <= 720.0 ==> 0.0 <= r <= 360.0
  {
    if d < 0.0 then d + 360.0 else if d > 360.0 then d - 360.0 else d
  }

  /** The compass direction toward a target whose math-convention bearing
      (counter-clockwise from +x, in degrees) is `bearing`. */
  function DesiredDirection(bearing: real): (r: real)
    ensures 90.0 <= bearing <= 180.0 ==> r == 450.0 - bearing
    ensures -180.0 <= bearing < 90.0 ==> r == 90.0 - bearing
  {
    NormalizeDesired(360.0 - bearing + 90.0)
  }

  /** The signed turn from `heading` to `desired`, corrected once toward the
      short way round. */
  function ShortestDiff(desired: real, heading: real): (r: real)
    ensures r == desired - heading || r == desired - heading - 360.0 || r == desired - heading + 360.0
    ensures -180.0 <= desired - heading <= 180.0 ==> r == desired - heading
    ensures -540.0 <= desired - heading <= 540.0 ==> -180.0 <= r <= 180.0
  {
    var dif := desired - heading;
    if dif > 180.0 then dif - 360.0 else if dif < -180.0 then dif + 360.0 else dif
  }

  /** The heading after turning by `dif`, at most TURN_RATE degrees. */
  function TurnStep(heading: real, dif: real): (r: real)
    ensures Abs(r - heading) <= TURN_RATE
    ensures Abs(dif) <= TURN_RATE ==> r == heading + dif
    ensures dif > TURN_RATE ==> r == heading + TURN_RATE
    ensures dif < -TURN_RATE ==> r == heading - TURN_RATE
  {
    if Abs(dif) <= TURN_RATE then heading + dif
    else if dif > 0.0 then heading + TURN_RATE
    else heading - TURN_RATE
  }

  /** One wrap of the heading after a pointer turn: values strictly above 360
      lose a turn, negative values gain one; 360 itself stays. */
  function WrapHeading(h: real): (r: real)
    ensures r == h || r == h - 360.0 || r == h + 360.0
    ensures 0.0 <= h <= 360.0 ==> r == h
    ensures -360.0 <= h <= 720.0 ==> 0.0 <= r <= 360.0
  {
    if h > 360.0 then h - 360.0 else if h < 0.0 then h + 360.0 else h
  }

  /** The heading after one pointer-steering tick toward `desired`. */
  function TurnToward(heading: real, desired: real): (r: real)
    ensures Abs(r - heading) <= TURN_RATE || Abs(r - heading - 360.0) <= TURN_RATE || Abs(r - heading + 360.0) <= TURN_RATE
  {
    WrapHeading(TurnStep(heading, ShortestDiff(desired, heading)))
  }

  // ---------------------------------------------------------------------------
  // The player

  class Player {
    /** Heading in degrees, compass convention. */
    var direction: real
    var x: real
    var y: real

    /** A fresh player faces heading 0 at the origin. */
    constructor ()
      ensures direction == 0.0 && x == 0.0 && y == 0.0
    {
      direction := 0.0;
      x := 0.0;
      y := 0.0;
    }

    /** One keyboard tick: turn, then move along the new heading. */
    method KeyboardMovement(keys: Keys, trig: Trig)
      modifies this
      ensures direction == KeyboardHeading(old(direction), keys.right, keys.left)
      ensures x == old(x) + trig.sinDeg(direction) * SPEED * Thrust(keys.up, keys.down)
      ensures y == old(y) + trig.cosDeg(direction) * SPEED * Thrust(keys.up, keys.down)
      ensures !keys.up && !keys.down ==> x == old(x) && y == old(y)
    {
      if keys.right {
        direction := direction + TURN_RATE;
      }
      if keys.left {
        direction := direction - TURN_RATE;
      }
      var thrust := if keys.up then 1.0 else if keys.down then -1.0 else 0.0;
      var xMovement := trig.sinDeg(direction) * SPEED * thrust;
      var yMovement := trig.cosDeg(direction) * SPEED * thrust;
      x := x + xMovement;
      y := y + yMovement;
    }

    /** One pointer tick toward the pointer at (mouseX, mouseY). */
    method MouseMovement(leftPressed: bool, mouseX: real, mouseY: real, trig: Trig)
      modifies this
      ensures !leftPressed || InDeadZone(mouseX - old(x), mouseY - old(y)) ==>
                direction == old(direction) && x == old(x) && y == old(y)
      ensures leftPressed && !InDeadZone(mouseX - old(x), mouseY - old(y)) ==>
                && direction == TurnToward(old(direction), DesiredDirection(trig.atan2Deg(mouseY - old(y), mouseX - old(x))))
                && x == old(x) + trig.sinDeg(direction) * SPEED
                && y == old(y) + trig.cosDeg(direction) * SPEED
      ensures (leftPressed && !InDeadZone(mouseX - old(x), mouseY - old(y)) &&
               -TURN_RATE <= old(direction) <= 360.0 + TURN_RATE) ==> 0.0 <= direction <= 360.0
    {
      if leftPressed {
        var difX := mouseX - x;
        var difY := mouseY - y;
        if Abs(difX) < SPEED && Abs(difY) < SPEED {
          return;
        }

        var bearing := trig.atan2Deg(difY, difX);
        if -TURN_RATE <= direction <= 360.0 + TURN_RATE {
          DesiredDirectionInRange(bearing);
          TurnTowardInRange(direction, DesiredDirection(bearing));
        }

        // Desired direction toward the pointer, wrapped once.
        var desired := NormalizeDesired(360.0 - bearing + 90.0);
        // Difference to the current heading, corrected toward the short way.
        var difDirection := ShortestDiff(desired, direction);
        // Turn by at most TURN_RATE, then wrap the heading once.
        direction := WrapHeading(TurnStep(direction, difDirection));

        var xMovement := trig.sinDeg(direction) * SPEED;
        var yMovement := trig.cosDeg(direction) * SPEED;
        x := x + xMovement;
        y := y + yMovement;
      }
    }
  }

  // ---------------------------------------------------------------------------
  // Properties of the angle arithmetic

  /** The two single wraps of the pointer update test their bounds in
      opposite order but agree everywhere. */
  lemma WrapsAgree(h: real)
    ensures NormalizeDesired(h) == WrapHeading(h)
  {
  }

  lemma ShiftIsSameAngle(a: real, b: real)
    requires a - b == 0.0 || a - b == 360.0 || a - b == -360.0
    ensures SameAngle(a, b)
  {
  }

  /** For a bearing in [-180, 180], the desired direction 450 - bearing after
      its single wrap lies in [0, 360] and names the same direction. */
  lemma DesiredDirectionInRange(bearing: real)
    requires -180.0 <= bearing <= 180.0
    ensures 0.0 <= DesiredDirection(bearing) <= 360.0
    ensures SameAngle(DesiredDirection(bearing), 450.0 - bearing)
  {
  }

  /** For a heading and a desired direction in [0, 360], the corrected
      difference lies in [-180, 180], names the same turn as desired - heading,
      and is no longer than any of the three candidate turns. */
  lemma ShortestDiffIsShortest(desired: real, heading: real)
    requires 0.0 <= desired <= 360.0 && 0.0 <= heading <= 360.0
    ensures -180.0 <= ShortestDiff(desired, heading) <= 180.0
    ensures SameAngle(ShortestDiff(desired, heading), desired - heading)
    ensures Abs(ShortestDiff(desired, heading)) <= Abs(desired - heading)
    ensures Abs(ShortestDiff(desired, heading)) <= Abs(desired - heading - 360.0)
    ensures Abs(ShortestDiff(desired, heading)) <= Abs(desired - heading + 360.0)
  {
  }

  /** Within one turn step of the desired direction, the turn resolves
      exactly: the new heading is heading + dif, which names the desired
      direction, and so does the wrapped heading. */
  lemma TurnStepResolves(heading: real, desired: real)
    requires Abs(ShortestDiff(desired, heading)) <= TURN_RATE
    ensures TurnStep(heading, ShortestDiff(desired, heading)) == heading + ShortestDiff(desired, heading)
    ensures SameAngle(TurnStep(heading, ShortestDiff(desired, heading)), desired)
    ensures SameAngle(TurnToward(heading, desired), desired)
  {
  }

  /** A pointer tick from a heading within one step of [0, 360] lands in
      [0, 360] (the single wrap suffices). */
  lemma TurnTowardInRange(heading: real, desired: real)
    requires 0.0 <= desired <= 360.0
    requires -TURN_RATE <= heading <= 360.0 + TURN_RATE
    ensures 0.0 <= TurnToward(heading, desired) <= 360.0
  {
  }

  /** A heading that already names the desired direction stays put. */
  lemma TurnTowardHolds(heading: real, desired: real)
    requires 0.0 <= desired <= 360.0 && 0.0 <= heading <= 360.0
    requires SameAngle(heading, desired)
    ensures TurnToward(heading, desired) == heading
  {
  }

  /** Farther than one step from the desired direction, a tick turns exactly
      one step toward it: the remaining shortest difference shrinks by
      TURN_RATE and keeps its sign. */
  lemma TurnTowardProgress(heading: real, desired: real)
    requires 0.0 <= desired <= 360.0 && 0.0 <= heading <= 360.0
    requires Abs(ShortestDiff(desired, heading)) > TURN_RATE
    ensures ShortestDiff(desired, heading) > 0.0 ==>
              ShortestDiff(desired, TurnToward(heading, desired)) == ShortestDiff(desired, heading) - TURN_RATE
    ensures ShortestDiff(desired, heading) < 0.0 ==>
              ShortestDiff(desired, TurnToward(heading, desired)) == ShortestDiff(desired, heading) + TURN_RATE
  {
  }

  /** A heading of the keyboard path plus one pointer tick, when both apply in
      the same tick, ends in [0, 360]. */
  lemma KeyboardThenPointerInRange(heading: real, keys: Keys, bearing: real)
    requires 0.0 <= heading <= 360.0
    requires -180.0 <= bearing <= 180.0
    ensures 0.0 <= TurnToward(KeyboardHeading(heading, keys.right, keys.left), DesiredDirection(bearing)) <= 360.0
  {
  }

  /** A heading far outside [0, 360], which the keyboard path can reach, is
      not brought back by one wrap, and the once-corrected difference then
      turns it the long way round. */
  lemma TurnTowardOutOfRange()
    ensures ShortestDiff(90.0, 1000.0) == -550.0
    ensures TurnToward(1000.0, 90.0) == 637.0
    ensures TurnToward(637.0, 90.0) == 274.0
  {
  }

  // ---------------------------------------------------------------------------
  // Several pointer ticks

  /** The heading after pointer ticks whose atan2 bearings are `bearings`. */
  function SteerAlong(heading: real, bearings: seq<real>): real
    decreases |bearings|
  {
    if bearings == [] then heading
    else SteerAlong(TurnToward(heading, DesiredDirection(bearings[0])), bearings[1..])
  }

  /** Pointer steering keeps a heading in [0, 360] over any number of ticks. */
  lemma {:induction false} SteerAlongInRange(heading: real, bearings: seq<real>)
    requires 0.0 <= heading <= 360.0
    requires forall i :: 0 <= i < |bearings| ==> -180.0 <= bearings[i] <= 180.0
    ensures 0.0 <= SteerAlong(heading, bearings) <= 360.0
    decreases |bearings|
  {
    if bearings != [] {
      DesiredDirectionInRange(bearings[0]);
      TurnTowardInRange(heading, DesiredDirection(bearings[0]));
      SteerAlongInRange(TurnToward(heading, DesiredDirection(bearings[0])), bearings[1..]);
    }
  }

  /** The heading after `n` pointer ticks whose desired direction stays `desired`. */
  function SteerToward(heading: real, desired: real, n: nat): real
    decreases n
  {
    if n == 0 then heading else SteerToward(TurnToward(heading, desired), desired, n - 1)
  }

  lemma {:induction false} SteerTowardHolds(heading: real, desired: real, n: nat)
    requires 0.0 <= desired <= 360.0 && 0.0 <= heading <= 360.0
    requires SameAngle(heading, desired)
    ensures SteerToward(heading, desired, n) == heading
    decreases n
  {
    if n > 0 {
      TurnTowardHolds(heading, desired);
      SteerTowardHolds(heading, desired, n - 1);
    }
  }

  /** Toward a fixed desired direction, a heading whose shortest difference is
      at most 3n degrees names the desired direction after n ticks, and stays
      in [0, 360]. */
  lemma {:induction false} SteerTowardConverges(heading: real, desired: real, n: nat)
    requires 0.0 <= desired <= 360.0 && 0.0 <= heading <= 360.0
    requires Abs(ShortestDiff(desired, heading)) <= TURN_RATE * (n as real)
    ensures SameAngle(SteerToward(heading, desired, n), desired)
    ensures 0.0 <= SteerToward(heading, desired, n) <= 360.0
    decreases n
  {
    var dif := ShortestDiff(desired, heading);
    if n == 0 {
      assert dif == 0.0;
      ShiftIsSameAngle(heading, desired);
    } else if Abs(dif) <= TURN_RATE {
      var next := TurnToward(heading, desired);
      TurnStepResolves(heading, desired);
      TurnTowardInRange(heading, desired);
      SteerTowardHolds(next, desired, n - 1);
    } else {
      var next := TurnToward(heading, desired);
      TurnTowardInRange(heading, desired);
      TurnTowardProgress(heading, desired);
      SteerTowardConverges(next, desired, n - 1);
    }
  }

  /** Facing north while the target bearing stays due east, thirty ticks turn
      the heading to exactly 90. */
  lemma EastwardTurn()
    ensures DesiredDirection(0.0) == 90.0
    ensures SteerToward(0.0, DesiredDirection(0.0), 30) == 90.0
  {
    SteerTowardConverges(0.0, 90.0, 30);
    var h := SteerToward(0.0, 90.0, 30);
    var turns := (h - 90.0) / 360.0;
    assert -1.0 < turns < 1.0;
  }

  /** A fresh player with the pointer straight ahead at (0, 100): the desired
      direction computes to 360, the turn is 0, and the ball moves one step
      along heading 0. */
  method PointerAheadTick(trig: Trig) returns (direction: real, x: real, y: real)
    requires trig.atan2Deg(100.0, 0.0) == 90.0
    ensures DesiredDirection(trig.atan2Deg(100.0, 0.0)) == 360.0
    ensures ShortestDiff(360.0, 0.0) == 0.0
    ensures direction == 0.0
    ensures x == trig.sinDeg(0.0) * SPEED && y == trig.cosDeg(0.0) * SPEED
  {
    var player := new Player();
    player.MouseMovement(true, 0.0, 100.0, trig);
    direction, x, y := player.direction, player.x, player.y;
  }
}
