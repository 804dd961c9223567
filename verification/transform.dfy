/** The arcade-drive mixer of a two-wheeled minibot.

    Two joystick readings (the left stick's vertical axis and the right
    stick's horizontal axis, nominally 0..255) become two motor commands in
    0..255: each axis is remapped to -127..127, small deflections are zeroed,
    throttle and turn are mixed into a left and a right drive value, each side
    may be negated, and the drive values are remapped to the motor range and
    clamped.

    Arithmetic is on unbounded integers with C++ truncating division
    (`CppInt.TruncDiv`); `TransformProps.NoInt32Overflow` bounds the inputs
    for which no intermediate leaves the 32-bit range.
 */
module Minibots {
  import opened CppInt

  // Motor command range and the neutral command.
  const MotorMin: int := 0
  const MotorIdle: int := 127
  const MotorMax: int := 255

  // Deadzones, on the -127..127 scale, of the two sticks.
  const LStickDeadzone: int := 10
  const RStickDeadzone: int := 10

  /** Linear remap of `x` from `[inMin, inMax]` to `[outMin, outMax]` with
      C++ integer division: `(x - inMin) * (outMax - outMin) / (inMax - inMin) + outMin`. */
  function MapRange(x: int, inMin: int, inMax: int, outMin: int, outMax: int): (r: int)
    requires inMax != inMin
    ensures x == inMin ==> r == outMin
    ensures x == inMax ==> r == outMax
    ensures inMin <= x <= inMax && outMin <= outMax ==> outMin <= r <= outMax
  {
    var d, w := inMax - inMin, outMax - outMin;
    ScaleEndpoints(x - inMin, d, w);
    TruncDiv((x - inMin) * w, d) + outMin
  }

  /** Scaling `t` by `w / d`: 0 goes to 0, `d` goes to `w`, and a point of
      `[0, d]` lands in `[0, w]` when `w` is not negative. */
  lemma ScaleEndpoints(t: int, d: int, w: int)
    requires d != 0
    ensures t == 0 ==> TruncDiv(t * w, d) == 0
    ensures t == d ==> TruncDiv(t * w, d) == w
    ensures 0 <= t <= d && w >= 0 ==> 0 <= TruncDiv(t * w, d) <= w
  {
    if t == 0 {
      TruncDivExact(0, d);
    } else if t == d {
      TruncDivExact(w, d);
    } else if 0 <= t <= d && w >= 0 {
      ScaleWithin(t, d, w);
    }
  }

  lemma ScaleWithin(t: int, d: int, w: int)
    requires 0 <= t <= d && d != 0 && w >= 0
    ensures 0 <= TruncDiv(t * w, d) <= w
  {
    var n, q := t * w, TruncDiv(t * w, d);
    MulNonNeg(t, w);
    MulNonNeg(d - t, w);
    assert w * d == n + (d - t) * w;
    // the remainder n - q * d lies in [0, d), which rules out q < 0 and q > w
    FactorBounds(q, d, w);
  }

  /** A quotient below 0 or above `w` moves `q * d` by at least `d`. */
  lemma FactorBounds(q: int, d: int, w: int)
    requires d > 0
    ensures q <= -1 ==> q * d <= -d
    ensures q >= w + 1 ==> q * d >= w * d + d
  {
    if q <= -1 {
      AtLeastOneFactor(-q, d);
      assert q * d == -((-q) * d);
    }
    if q >= w + 1 {
      AtLeastOneFactor(q - w, d);
      assert q * d == w * d + (q - w) * d;
    }
  }

  lemma MulNonNeg(a: int, b: int)
    requires a >= 0 && b >= 0
    ensures a * b >= 0
  {
  }

  /** Step 1: a raw stick reading (0..255) on the signed -127..127 scale.
      A reading of 1..255 lands 128 below itself; 0 and 1 both land on -127. */
  function AxisToDrive(x: int): (v: int)
    ensures 0 <= x <= 255 ==> v == if x == 0 then -127 else x - 128
  {
    if 0 <= x <= 255 then
      var q := if x == 0 then 0 else x - 1;
      assert (x - 0) * (127 - -127) - q * 255 == (if x == 0 then 0 else 255 - x);
      TruncDivUnique((x - 0) * (127 - -127), 255, q);
      MapRange(x, 0, 255, -127, 127)
    else
      MapRange(x, 0, 255, -127, 127)
  }

  /** Step 2: zero a value whose magnitude is below `band`. */
  function Deadzone(v: int, band: int): (r: int)
    ensures r == 0 || r == v
    ensures r == 0 || Abs(r) >= band
    ensures Abs(v) >= band ==> r == v
  {
    if Abs(v) < band then 0 else v
  }

  /** The throttle after remap and deadzone; it depends on the left stick
      alone.  It is the remapped reading or 0, never a nonzero value inside the
      band, and on 0..255 it is 0 exactly for the readings 119..137. */
  function Throttle(leftY: int): (t: int)
    ensures t == 0 || t == AxisToDrive(leftY)
    ensures t == 0 || Abs(t) >= LStickDeadzone
    ensures 0 <= leftY <= 255 ==> (t == 0 <==> 119 <= leftY <= 137)
  {
    Deadzone(AxisToDrive(leftY), LStickDeadzone)
  }

  /** The turn after remap and deadzone; it depends on the right stick alone,
      with the same band as the throttle. */
  function Turn(rightX: int): (t: int)
    ensures t == 0 || t == AxisToDrive(rightX)
    ensures t == 0 || Abs(t) >= RStickDeadzone
    ensures 0 <= rightX <= 255 ==> (t == 0 <==> 119 <= rightX <= 137)
  {
    Deadzone(AxisToDrive(rightX), RStickDeadzone)
  }

  /** Step 4: the optional negation of one side.  It keeps the magnitude, and
      it changes the value exactly when the flag is set and the value is not 0. */
  function Orient(v: int, invert: bool): (o: int)
    ensures Abs(o) == Abs(v)
    ensures o == v <==> !invert || v == 0
  {
    if invert then -v else v
  }

  /** Step 5: a drive value (-127..127) on the motor scale.  A value of
      -127..126 lands 127 above itself; 127 lands on 255, so the motor value 254
      is never produced from the nominal range. */
  function DriveToMotor(v: int): (m: int)
    ensures -127 <= v <= 127 ==> m == if v == 127 then 255 else v + 127
  {
    if -127 <= v <= 127 then
      var q := if v == 127 then 255 else v + 127;
      assert (v - -127) * (MotorMax - MotorMin) - q * 254 == (if v == 127 then 0 else v + 127);
      TruncDivUnique((v - -127) * (MotorMax - MotorMin), 254, q);
      MapRange(v, -127, 127, MotorMin, MotorMax)
    else
      MapRange(v, -127, 127, MotorMin, MotorMax)
  }

  /** Step 6: the two clamps of one motor command, upper bound first. */
  function Clamp(m: int): (r: int)
    ensures MotorMin <= r <= MotorMax
    ensures MotorMin <= m <= MotorMax ==> r == m
    ensures m > MotorMax ==> r == MotorMax
    ensures m < MotorMin ==> r == MotorMin
  {
    var m' := if m > MotorMax then MotorMax else m;
    if m' < MotorMin then MotorMin else m'
  }

  /** Steps 4 to 6 for one side: the motor command for a mixed drive value. */
  function SideCommand(v: int, invert: bool): (m: int)
    ensures MotorMin <= m <= MotorMax
  {
    Clamp(DriveToMotor(Orient(v, invert)))
  }

  /** A pair of motor commands. */
  datatype Motors = Motors(left: int, right: int)

  /** The whole transform as a function of the readings and the two flags:
      left drive is throttle plus turn, right drive is throttle minus turn. */
  function ArcadeDrive(leftY: int, rightX: int, invertLeft: bool, invertRight: bool): (r: Motors)
    ensures MotorMin <= r.left <= MotorMax && MotorMin <= r.right <= MotorMax
  {
    var throttle, turn := Throttle(leftY), Turn(rightX);
    Motors(SideCommand(throttle + turn, invertLeft), SideCommand(throttle - turn, invertRight))
  }

  /** The mixer object.  Its inversion flags are set once by the constructor
      and have no setter, so they are immutable fields here. */
  class Transform {
    const invertLeft: bool
    const invertRight: bool

    constructor (invertLeftAxis: bool, invertRightAxis: bool)
      ensures invertLeft == invertLeftAxis && invertRight == invertRightAxis
    {
      invertLeft := invertLeftAxis;
      invertRight := invertRightAxis;
    }

    /** One control tick: the two motor commands for the current readings. */
    method Drive(leftY: int, rightX: int) returns (leftMotor: int, rightMotor: int)
      ensures MotorMin <= leftMotor <= MotorMax && MotorMin <= rightMotor <= MotorMax
      ensures Motors(leftMotor, rightMotor) == ArcadeDrive(leftY, rightX, invertLeft, invertRight)
    {
      var throttle := MapRange(leftY, 0, 255, -127, 127);
      var turn := MapRange(rightX, 0, 255, -127, 127);

      if Abs(throttle) < LStickDeadzone {
        throttle := 0;
      }
      if Abs(turn) < RStickDeadzone {
        turn := 0;
      }
      assert throttle == Throttle(leftY) && turn == Turn(rightX);

      var left := throttle + turn;
      var right := throttle - turn;

      if invertLeft {
        left := -left;
      }
      if invertRight {
        right := -right;
      }
      assert left == Orient(Throttle(leftY) + Turn(rightX), invertLeft);
      assert right == Orient(Throttle(leftY) - Turn(rightX), invertRight);

      leftMotor := MapRange(left, -127, 127, MotorMin, MotorMax);
      rightMotor := MapRange(right, -127, 127, MotorMin, MotorMax);
      assert leftMotor == DriveToMotor(left) && rightMotor == DriveToMotor(right);

      if leftMotor > MotorMax {
        leftMotor := MotorMax;
      }
      if leftMotor < MotorMin {
        leftMotor := MotorMin;
      }
      if rightMotor > MotorMax {
        rightMotor := MotorMax;
      }
      if rightMotor < MotorMin {
        rightMotor := MotorMin;
      }
      assert leftMotor == Clamp(DriveToMotor(left)) && rightMotor == Clamp(DriveToMotor(right));
    }
  }
}
