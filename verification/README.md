# Minibot arcade-drive transform, modelled in Dafny

The minibot firmware turns two joystick readings into two motor commands with
one small class, `Transform`. The readings are the left stick's vertical axis
`left_y` and the right stick's horizontal axis `right_x`, each nominally 0..255.
The motor commands `left_motor` and `right_motor` are clamped to 0..255. Each
call of `transform` does six steps:

1. It remaps each reading linearly to -127..127 with `map_range`. The division in
   `map_range` is C++ `int` division, which rounds toward zero.
2. It zeroes a remapped axis whose magnitude is below its deadzone of 10.
3. It mixes: left drive is throttle plus turn, right drive is throttle minus turn.
4. It negates the left and/or right drive when the matching flag is set.
5. It remaps each drive value from -127..127 to 0..255.
6. It clamps each command to `MOTOR_MIN`..`MOTOR_MAX` (0..255).

The two inversion flags are given to the constructor and never change.

The project has three modules:

- `CppInt` (`cpp_int.dfy`): C++ truncating division `TruncDiv` and its
  characterisation. Dafny's own `/` rounds down for a positive divisor.
- `Minibots` (`transform.dfy`): the constants, `MapRange`, one specification
  function per step (`ArcadeDrive` composes them) and the class `Transform`.
  Its method `Drive` performs the steps statement by statement, like the C++
  code, and is proved equal to `ArcadeDrive`.
- `TransformProps` (`transform_props.dfy`): the properties.
  - A division-free reference transform that the real transform is proved
    equal to on 0..255.
  - The deadzone band on the raw scale.
  - Which flag affects which motor.
  - What inversion does to a command.
  - Centred sticks, literal results and determinism.
  - The absence of 32-bit overflow for moderate readings.

On 0..255 the remaps have simple closed forms, which the contracts of
`AxisToDrive` and `DriveToMotor` state:

- A reading `x` becomes `x - 128`, except that 0 becomes -127.
- A drive value `v` in -127..126 becomes `v + 127`, and 127 becomes 255.

So the deadzone is exactly the raw readings 119..137. Inversion is not a
`255 - m` mirror: inverting one side turns a command strictly between the
bounds into `254 - m`, and a saturated command into the opposite bound. At the
centre, 127 stays 127.

## Model

| member | source | states |
|---|---|---|
| `CppInt.TruncDiv` | minibots/transform.cpp:9 | C++ `/` on `int`: the remainder `n - q*d` is smaller than `d` in magnitude and is zero or has the sign of the dividend |
| `CppInt.TruncDivUnique` | minibots/transform.cpp:9 | those two conditions determine the quotient, so `TruncDiv` is exactly C++ division |
| `CppInt.TruncDivVersusFloor` | minibots/transform.cpp:9 | for a positive divisor the C++ quotient equals the floor quotient, except for a negative dividend that the divisor does not divide, where it is one larger |
| `CppInt.TruncDivExact` | minibots/transform.cpp:9 | dividing a multiple of `d` by `d` gives the factor back |
| `CppInt.Abs` | minibots/transform.cpp:17-18 | `abs` in the deadzone tests: the result is the argument or its negation, and it is never negative |
| `Minibots.MapRange` | minibots/transform.cpp:8-10 | `in_min` maps to `out_min` and `in_max` maps to `out_max`; a point of `[in_min, in_max]` lands in `[out_min, out_max]` |
| `Minibots.AxisToDrive` | minibots/transform.cpp:14-15 | the remap of a stick reading `x`: on 0..255, a reading in 1..255 becomes `x - 128` and 0 becomes -127 |
| `Minibots.Deadzone` | minibots/transform.cpp:17-18 | the result is 0 or the input; it is never a nonzero value below the band; a value at or above the band passes unchanged |
| `Minibots.Throttle` | minibots/transform.cpp:14-17 | the throttle is 0 or the remapped left reading, is never nonzero with magnitude below 10, and on 0..255 is 0 exactly for the readings 119..137 |
| `Minibots.Turn` | minibots/transform.cpp:15-18 | the turn is 0 or the remapped right reading, is never nonzero with magnitude below 10, and on 0..255 is 0 exactly for the readings 119..137 |
| `Minibots.Orient` | minibots/transform.cpp:23-28 | the optional negation keeps the magnitude, and it changes the value exactly when the flag is set and the value is not 0 |
| `Minibots.DriveToMotor` | minibots/transform.cpp:30-31 | the remap of a drive value `v`: on -127..127, a value in -127..126 becomes `v + 127` and 127 becomes 255 |
| `Minibots.Clamp` | minibots/transform.cpp:33-36 | the command lies in `MOTOR_MIN..MOTOR_MAX` (0..255); an in-range value is kept; values above go to `MOTOR_MAX` and values below go to `MOTOR_MIN` |
| `Minibots.SideCommand` | minibots/transform.cpp:23-36 | inversion, remap and clamp of one side give a command in 0..255 |
| `Minibots.ArcadeDrive` | minibots/transform.cpp:12-37 | for every pair of readings (any integers) and either flag setting, both commands lie in 0..255 |
| `Minibots.Transform.constructor` | minibots/transform.cpp:3-6 | the two flags are stored as given |
| `Minibots.Transform.Drive` | minibots/transform.cpp:12-37 | the remap, deadzone, mix, invert, remap and clamp statements return `ArcadeDrive` of the readings and the object's flags; both commands lie in 0..255 |
| `TransformProps.SideCommandMatchesReference` | minibots/transform.cpp:23-36 | for every drive value, the command is 255 at or above 127, 0 at or below -127, and `v + 127` in between (after the optional negation) |
| `TransformProps.StickMatchesReference` | minibots/transform.cpp:14-18 | on 0..255 throttle and turn equal a division-free reference: 0 on 119..137, the closed-form remap elsewhere |
| `TransformProps.DriveMatchesReference` | minibots/transform.cpp:12-37 | on readings 0..255 the transform equals a reference transform built from the division-free closed forms |
| `TransformProps.LeftMatchesReference` | minibots/transform.cpp:12-36 | on readings 0..255 the left command equals the reference left command |
| `TransformProps.RightMatchesReference` | minibots/transform.cpp:12-36 | on readings 0..255 the right command equals the reference right command |
| `TransformProps.SameNeutralBand` | minibots/transform.h:18-19 | both deadzones are 10, so a reading gives the same throttle on one stick as turn on the other |
| `TransformProps.DeadzoneWidth` | minibots/transform.cpp:14-18 | on 0..255 the deadzone catches exactly 2 * 10 - 1 = 19 readings of each stick |
| `TransformProps.NoTurnSameCommands` | minibots/transform.cpp:20-31 | when turn is 0 and the flags are equal, both motors get the same command |
| `TransformProps.InvertLeftOnlyLeft` | minibots/transform.cpp:23-31 | changing `invert_left` leaves the right command unchanged |
| `TransformProps.InvertRightOnlyRight` | minibots/transform.cpp:23-31 | changing `invert_right` leaves the left command unchanged |
| `TransformProps.InvertedPairSum` | minibots/transform.cpp:23-36 | the commands for a drive value and for its negation add up to 254, or to 255 when the value is at least 127 in magnitude |
| `TransformProps.FlipLeftMirror` | minibots/transform.cpp:23-36 | flipping the left flag turns a left command `m` with 0 < m < 255 into `254 - m`, 0 into 255 and 255 into 0 |
| `TransformProps.IdleIsZeroDrive` | minibots/transform.h:16 | `MOTOR_IDLE` (127) equals the remap of a zero drive value |
| `TransformProps.CentredSticks` | minibots/transform.cpp:14-31 | when both axes fall inside the deadzone the commands are (127, 127) for every flag setting |
| `TransformProps.FullForward` | minibots/transform.cpp:14-36 | readings (255, 128) with no inversion give (255, 255) |
| `TransformProps.SpinInPlace` | minibots/transform.cpp:14-36 | readings (128, 255) with no inversion give (255, 0) |
| `TransformProps.BothSticksLow` | minibots/transform.cpp:14-36 | readings (0, 0) with no inversion give (0, 127); the left drive is -254 and is clamped |
| `TransformProps.TruncationAtMinus254` | minibots/transform.cpp:30 | the remap of the drive value -254 is -127 with C++ division; floor division would give -128 |
| `TransformProps.RepeatedTicksAgree` | minibots/transform.h:6-11 | two calls with the same readings, on one object or on two objects built with the same flags, return the same commands |
| `TransformProps.NoInt32Overflow` | minibots/transform.cpp:9-31 | for readings of magnitude up to 4,000,000, every product, remapped axis, mixed or negated drive value and unclamped command fits in a 32-bit `int` |
| `TransformProps.AxisInInt32` | minibots/transform.cpp:9-18 | for a reading of magnitude up to 4,000,000 the remap product and the remapped value fit in a 32-bit `int`, and throttle and turn stay within 4,000,127 in magnitude |
| `TransformProps.SideInInt32` | minibots/transform.cpp:23-31 | for a drive value of magnitude up to 8,000,254 the negated value, the remap product and the unclamped command fit in a 32-bit `int` |
| `TransformProps.LeftInInt32` | minibots/transform.cpp:20-30 | for readings of magnitude up to 4,000,000 every value of the left side fits in a 32-bit `int` |
| `TransformProps.RightInInt32` | minibots/transform.cpp:21-31 | for readings of magnitude up to 4,000,000 every value of the right side fits in a 32-bit `int` |

## Left out

- Integer width: the model uses unbounded integers. In C++, `(x - in_min) * (out_max - out_min)`
  overflows a 32-bit `int` for very large readings, and that is undefined behaviour.
  `TransformProps.NoInt32Overflow` shows that no intermediate value overflows a
  32-bit `int` for readings of magnitude up to 4,000,000. On that range the model
  and the C++ code agree, provided `int` is 32 bits wide, as on the usual targets.
  C++ only guarantees 16 bits. With a 16-bit `int`, the input remap product
  `left_y * 254` overflows for every reading from 130 up, and the output remap
  product `(left + 127) * 255` overflows for every drive value from 2 up, so
  nominal readings overflow there. The undefined behaviour of either case is not modelled.
- `abs(INT_MIN)` is undefined in C++. `CppInt.Abs` is the mathematical absolute
  value, and the overflow bound above keeps every argument far from `INT_MIN`.
- Access control: C++ declares the flags and `map_range` private, and the
  public surface is the constructor and `transform`. The model cannot enforce
  this because it uses no export sets. `map_range` is the module-level function
  `MapRange`. The flags are `const` fields, which keeps the other half of that
  design: nothing can change them after construction.
- Reference out-parameters: `left_motor` and `right_motor` are written through C++
  references. In the model they are `Drive`'s two out-parameters, and `Drive`
  assigns and clamps them in the same order. Two references can alias: a call
  `transform(a, b, m, m)` leaves `m` equal to the clamped right command. Dafny
  out-parameters are distinct variables, so the model does not capture that
  aliasing.
- `MOTOR_IDLE` is declared but not used by `transform`. The model declares it as
  `MotorIdle` and uses it only to state `IdleIsZeroDrive` and `CentredSticks`.
- Reading the joysticks and driving the motor controllers happens outside the
  transform and is not part of this model.
