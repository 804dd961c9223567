/** Properties of the arcade-drive mixer: a division-free reference
    transform it equals on the nominal range, the width of the deadzone on the
    raw scale, what each inversion flag touches, centred sticks, literal
    results, and the absence of 32-bit overflow for moderate readings.
 */
module TransformProps {
  import opened CppInt
  import opened Minibots

  // ---------------------------------------------------------------------
  // Reference definitions free of division
  // ---------------------------------------------------------------------

  /** Reference motor command for a (possibly negated) drive value, stated
      without division: saturate at 127 and -127, else shift by 127. */
  function ReferenceCommand(v: int): (m: int)
    ensures MotorMin <= m <= MotorMax
  {
    if v >= 127 then MotorMax else if v <= -127 then MotorMin else v + 127
  }

  /** Steps 4 to 6 agree with the reference command for every drive value,
      including those outside -127..127 that mixing produces. */
  lemma {:induction false} SideCommandMatchesReference(v: int, invert: bool)
    ensures SideCommand(v, invert) == ReferenceCommand(Orient(v, invert))
  {
    var o := Orient(v, invert);
    var n := (o - -127) * (MotorMax - MotorMin);
    if o > 127 {
      TruncDivVersusFloor(n, 254);
      assert n >= 254 * 255;
    } else if o < -127 {
      TruncDivVersusFloor(n, 254);
      assert n < 0;
    }
  }

  /** Reference signed value of a stick reading in 0..255. */
  function ReferenceAxis(x: int): (v: int)
    requires 0 <= x <= 255
    ensures -127 <= v <= 127
  {
    if x == 0 then -127 else x - 128
  }

  /** Reference throttle (or turn) for a stick reading in 0..255: zero on the
      raw band 119..137, the reference value elsewhere. */
  function ReferenceStick(x: int): (v: int)
    requires 0 <= x <= 255
    ensures -127 <= v <= 127
  {
    if 119 <= x <= 137 then 0 else ReferenceAxis(x)
  }

  /** On 0..255 remap and deadzone of either stick give the reference value. */
  lemma StickMatchesReference(x: int)
    requires 0 <= x <= 255
    ensures Throttle(x) == ReferenceStick(x) && Turn(x) == ReferenceStick(x)
  {
  }

  /** Reference transform for readings in 0..255, built from the division-free
      closed forms. */
  function ReferenceDrive(leftY: int, rightX: int, invertLeft: bool, invertRight: bool): (r: Motors)
    requires 0 <= leftY <= 255 && 0 <= rightX <= 255
    ensures MotorMin <= r.left <= MotorMax && MotorMin <= r.right <= MotorMax
  {
    var throttle, turn := ReferenceStick(leftY), ReferenceStick(rightX);
    Motors(ReferenceCommand(Orient(throttle + turn, invertLeft)),
           ReferenceCommand(Orient(throttle - turn, invertRight)))
  }

  /** On the nominal input range the transform equals the reference. */
  lemma {:induction false} DriveMatchesReference(leftY: int, rightX: int, invertLeft: bool, invertRight: bool)
    requires 0 <= leftY <= 255 && 0 <= rightX <= 255
    ensures ArcadeDrive(leftY, rightX, invertLeft, invertRight) == ReferenceDrive(leftY, rightX, invertLeft, invertRight)
  {
    LeftMatchesReference(leftY, rightX, invertLeft, invertRight);
    RightMatchesReference(leftY, rightX, invertLeft, invertRight);
  }

  /** The left command of the transform and of the reference agree. */
  lemma LeftMatchesReference(leftY: int, rightX: int, invertLeft: bool, invertRight: bool)
    requires 0 <= leftY <= 255 && 0 <= rightX <= 255
    ensures ArcadeDrive(leftY, rightX, invertLeft, invertRight).left == ReferenceDrive(leftY, rightX, invertLeft, invertRight).left
  {
    StickMatchesReference(leftY);
    StickMatchesReference(rightX);
    SideCommandMatchesReference(Throttle(leftY) + Turn(rightX), invertLeft);
  }

  /** The right command of the transform and of the reference agree. */
  lemma RightMatchesReference(leftY: int, rightX: int, invertLeft: bool, invertRight: bool)
    requires 0 <= leftY <= 255 && 0 <= rightX <= 255
    ensures ArcadeDrive(leftY, rightX, invertLeft, invertRight).right == ReferenceDrive(leftY, rightX, invertLeft, invertRight).right
  {
    StickMatchesReference(leftY);
    StickMatchesReference(rightX);
    SideCommandMatchesReference(Throttle(leftY) - Turn(rightX), invertRight);
  }

  // ---------------------------------------------------------------------
  // Deadzone
  // ---------------------------------------------------------------------

  /** Both sticks share one neutral band: a reading gives the same throttle on
      the left stick as turn on the right stick. */
  lemma SameNeutralBand(x: int)
    ensures Throttle(x) == Turn(x)
    ensures LStickDeadzone == RStickDeadzone == 10
  {
  }

  /** The deadzone catches exactly `2 * 10 - 1` = 19 raw readings of each
      stick: on the nominal range the remap is a one-to-one shift there. */
  lemma {:induction false} DeadzoneWidth()
    ensures |set x: int | 0 <= x <= 255 && Throttle(x) == 0| == 2 * LStickDeadzone - 1
    ensures |set x: int | 0 <= x <= 255 && Turn(x) == 0| == 2 * RStickDeadzone - 1
  {
    var band := Interval(119, 138);
    ThrottleBand(band);
    TurnBand(band);
  }

  /** The raw readings whose throttle is zero form `band`. */
  lemma ThrottleBand(band: set<int>)
    requires forall x :: x in band <==> 119 <= x < 138
    ensures (set x: int | 0 <= x <= 255 && Throttle(x) == 0) == band
  {
  }

  /** The raw readings whose turn is zero form `band`. */
  lemma TurnBand(band: set<int>)
    requires forall x :: x in band <==> 119 <= x < 138
    ensures (set x: int | 0 <= x <= 255 && Turn(x) == 0) == band
  {
  }

  /** The integers of `[lo, hi)`, and how many there are. */
  function Interval(lo: int, hi: int): (s: set<int>)
    ensures forall x :: x in s <==> lo <= x < hi
    ensures |s| == if lo <= hi then hi - lo else 0
    decreases hi - lo
  {
    if lo >= hi then {} else {lo} + Interval(lo + 1, hi)
  }

  // ---------------------------------------------------------------------
  // Mixing and inversion
  // ---------------------------------------------------------------------

  /** With no turn both sides receive the same drive value, so equal flags
      give equal motor commands. */
  lemma NoTurnSameCommands(leftY: int, rightX: int, invert: bool)
    requires Turn(rightX) == 0
    ensures ArcadeDrive(leftY, rightX, invert, invert).left == ArcadeDrive(leftY, rightX, invert, invert).right
  {
  }

  /** The left flag touches only the left motor. */
  lemma InvertLeftOnlyLeft(leftY: int, rightX: int, a: bool, b: bool, invertRight: bool)
    ensures ArcadeDrive(leftY, rightX, a, invertRight).right == ArcadeDrive(leftY, rightX, b, invertRight).right
  {
  }

  /** The right flag touches only the right motor. */
  lemma InvertRightOnlyRight(leftY: int, rightX: int, invertLeft: bool, a: bool, b: bool)
    ensures ArcadeDrive(leftY, rightX, invertLeft, a).left == ArcadeDrive(leftY, rightX, invertLeft, b).left
  {
  }

  /** Inversion is not an exact mirror `255 - m`: the commands for a drive
      value and its negation add up to 254, or to 255 once the value reaches
      127 in magnitude. */
  lemma {:induction false} InvertedPairSum(v: int)
    ensures SideCommand(v, false) + SideCommand(v, true) == if Abs(v) >= 127 then 255 else 254
  {
    SideCommandMatchesReference(v, false);
    SideCommandMatchesReference(v, true);
  }

  /** Flipping the left flag turns a left command `m` strictly between the
      bounds into `254 - m`, and a saturated command into the opposite bound. */
  lemma {:induction false} FlipLeftMirror(leftY: int, rightX: int, invertRight: bool)
    ensures var m, m' := ArcadeDrive(leftY, rightX, false, invertRight).left,
                         ArcadeDrive(leftY, rightX, true, invertRight).left;
            (0 < m < 255 ==> m' == 254 - m) && (m == 0 ==> m' == 255) && (m == 255 ==> m' == 0)
  {
    var v := Throttle(leftY) + Turn(rightX);
    InvertedPairSum(v);
    SideCommandMatchesReference(v, false);
  }

  // ---------------------------------------------------------------------
  // Neutral output and literal results
  // ---------------------------------------------------------------------

  /** A zero drive value is sent as the idle command 127. */
  lemma IdleIsZeroDrive()
    ensures DriveToMotor(0) == MotorIdle
  {
  }

  /** Sticks inside the deadzone give (127, 127) whatever the flags are. */
  lemma CentredSticks(leftY: int, rightX: int, invertLeft: bool, invertRight: bool)
    requires Throttle(leftY) == 0 && Turn(rightX) == 0
    ensures ArcadeDrive(leftY, rightX, invertLeft, invertRight) == Motors(MotorIdle, MotorIdle)
  {
    IdleIsZeroDrive();
  }

  /** Full forward: left stick up, right stick centred. */
  lemma FullForward()
    ensures ArcadeDrive(255, 128, false, false) == Motors(255, 255)
  {
    DriveMatchesReference(255, 128, false, false);
  }

  /** Spin in place: left stick centred, right stick fully right. */
  lemma SpinInPlace()
    ensures ArcadeDrive(128, 255, false, false) == Motors(255, 0)
  {
    DriveMatchesReference(128, 255, false, false);
  }

  /** Both sticks at 0: the left drive -254 clamps to 0, the right drive 0
      gives 127. */
  lemma BothSticksLow()
    ensures ArcadeDrive(0, 0, false, false) == Motors(0, 127)
  {
    DriveMatchesReference(0, 0, false, false);
  }

  /** Truncating division is what the remap uses: for the drive value -254 the
      remap gives -127, where floor division would give -128 (the clamp then
      hides the difference). */
  lemma TruncationAtMinus254()
    ensures DriveToMotor(-254) == -127
    ensures (-254 - -127) * (MotorMax - MotorMin) / 254 + MotorMin == -128
  {
    TruncDivVersusFloor(-127 * 255, 254);
  }

  // ---------------------------------------------------------------------
  // The object
  // ---------------------------------------------------------------------

  /** Two ticks with the same readings, on one mixer or on two mixers built
      with the same flags, give the same commands: no call changes the flags. */
  method RepeatedTicksAgree(t: Transform, u: Transform, leftY: int, rightX: int)
      returns (first: Motors, second: Motors)
    requires t.invertLeft == u.invertLeft && t.invertRight == u.invertRight
    ensures first == second
  {
    var l1, r1 := t.Drive(leftY, rightX);
    var l2, r2 := u.Drive(leftY, rightX);
    first, second := Motors(l1, r1), Motors(l2, r2);
  }

  // ---------------------------------------------------------------------
  // 32-bit range
  // ---------------------------------------------------------------------

  /** Steps 1 and 2 for one reading `x` stay in the 32-bit range: the remap
      product `x * 254` and the remapped value. */
  predicate AxisFits(x: int) {
    InInt32(x * 254) && InInt32(AxisToDrive(x))
  }

  /** Steps 4 and 5 for one mixed drive value `v` stay in the 32-bit range:
      the negated value, the output remap product and the unclamped command. */
  predicate SideFits(v: int, invert: bool) {
    InInt32(v) && InInt32(Orient(v, invert)) && MotorFits(Orient(v, invert))
  }

  /** Step 5 for one drive value `o` stays in the 32-bit range: the output
      remap product and the unclamped command. */
  predicate MotorFits(o: int) {
    InInt32((o + 127) * 255) && InInt32(DriveToMotor(o))
  }

  /** For readings of magnitude at most 4,000,000 every value the C++ code
      computes fits in a 32-bit `int`: the two remap products, the remapped
      axes, the mixed and negated drive values, the output remap products and
      the unclamped commands. */
  lemma {:induction false} NoInt32Overflow(leftY: int, rightX: int, invertLeft: bool, invertRight: bool)
    requires Abs(leftY) <= 4_000_000 && Abs(rightX) <= 4_000_000
    ensures AxisFits(leftY) && AxisFits(rightX)
    ensures SideFits(Throttle(leftY) + Turn(rightX), invertLeft)
    ensures SideFits(Throttle(leftY) - Turn(rightX), invertRight)
  {
    AxisInInt32(leftY);
    AxisInInt32(rightX);
    LeftInInt32(leftY, rightX, invertLeft);
    RightInInt32(leftY, rightX, invertRight);
  }

  /** Steps 3 to 5 of the left side for readings of magnitude at most 4,000,000. */
  lemma LeftInInt32(leftY: int, rightX: int, invertLeft: bool)
    requires Abs(leftY) <= 4_000_000 && Abs(rightX) <= 4_000_000
    ensures SideFits(Throttle(leftY) + Turn(rightX), invertLeft)
  {
    AxisInInt32(leftY);
    AxisInInt32(rightX);
    SumInInt32(Throttle(leftY), Turn(rightX), invertLeft);
  }

  /** Steps 3 to 5 of the right side for readings of magnitude at most 4,000,000. */
  lemma RightInInt32(leftY: int, rightX: int, invertRight: bool)
    requires Abs(leftY) <= 4_000_000 && Abs(rightX) <= 4_000_000
    ensures SideFits(Throttle(leftY) - Turn(rightX), invertRight)
  {
    AxisInInt32(leftY);
    AxisInInt32(rightX);
    DifferenceInInt32(Throttle(leftY), Turn(rightX), invertRight);
  }

  /** The left side fits once throttle and turn are bounded. */
  lemma SumInInt32(throttle: int, turn: int, invert: bool)
    requires Abs(throttle) <= 4_000_127 && Abs(turn) <= 4_000_127
    ensures SideFits(throttle + turn, invert)
  {
    SideInInt32(throttle + turn, invert);
  }

  /** The right side fits once throttle and turn are bounded. */
  lemma DifferenceInInt32(throttle: int, turn: int, invert: bool)
    requires Abs(throttle) <= 4_000_127 && Abs(turn) <= 4_000_127
    ensures SideFits(throttle - turn, invert)
  {
    SideInInt32(throttle - turn, invert);
  }

  lemma AxisInInt32(x: int)
    requires Abs(x) <= 4_000_000
    ensures AxisFits(x)
    ensures Abs(Throttle(x)) <= 4_000_127 && Abs(Turn(x)) <= 4_000_127
  {
    AxisBound(x);
  }

  lemma SideInInt32(v: int, invert: bool)
    requires Abs(v) <= 8_000_254
    ensures SideFits(v, invert)
  {
    MotorBound(Orient(v, invert));
  }

  lemma AxisBound(x: int)
    ensures Abs(AxisToDrive(x)) <= Abs(x) + 127
  {
  }

  lemma MotorBound(v: int)
    ensures Abs(DriveToMotor(v)) <= 2 * Abs(v) + 256
  {
  }
}
