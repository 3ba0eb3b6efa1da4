# FRC robot control experiments, modelled in Dafny

This project models the control core of a small FIRST Robotics Competition robot
codebase written in Java on WPILib. It covers four areas.

- **Arm** (`arm_subsystem.dfy`). The arm joint has a lead and a follower motor.
  It homes its relative encoders once from an absolute encoder, then converts
  readings to degrees. An open-loop safety limiter stops it at the angle limits.
  In closed-loop mode it sends a position target plus an arm feedforward.
- **Wheel** (`wheel_subsystem.dfy`). A flywheel runs either as a raw duty cycle
  or as a velocity target in RPM, with a simple motor feedforward.
- **Commands** that drive the arm and the wheel:
  - joystick teleop with a deadband, plus a "hold position" latch for the arm
  - a ramping tuning command for the arm
  - a trapezoid-profile tuning command for the arm
  - a tuning command for the wheel
- **Vision**:
  - the Limelight pipelines and their ids
  - decoding of the MegaTag pose array into a pose estimate
  - the Limelight subsystem's target-info and pose reads
  - the target-alignment command
  - two pose-estimate forwarding commands
  - the mock swerve drive that receives their output

The Java code uses `NaN` to mean "no target in this mode" and `null` to mean
"absent". The model replaces both with tagged datatypes:

- `ArmTarget` is `RawOutput | ClosedLoop`.
- `WheelTarget` is `TargetOutput | TargetRpm`.
- Absent values are `Option`.

So the two modes cannot both be active, by construction.

Hardware writes are recorded in "last command sent" fields (`lastSent`,
`leadEncoderSetTo`, `idleMode`). Sensor reads are parameters of each
`Periodic`. Library calculations the code calls but does not define are
function parameters:

- `ArmFeedforward.calculate`
- `SimpleMotorFeedforward.calculate`
- `TrapezoidProfile.calculate`

`MathUtil.applyDeadband` and `MathUtil.clamp` are written out from their
published formulas, because the joystick properties depend on them.

Some commands are declared against classes in packages that are not part of this
model:

- `frc.robot.arm.ArmSubsystem`
- `frc.robot.subsystems.wheel.WheelSubsystem`
- `frc.robot.limelight.*`
- `frc.robot.swerve.SwerveDriveSubsystem`

These are modelled against the arm, wheel, vision and mock-drive classes that
are part of this model. Each drive is the mock swerve drive. Its ghost logs
`accepted` and `driveRequests` record every pose estimate and every speed
request it receives, so "forwarded exactly once" can be stated.

## Model

| member | source | states |
|---|---|---|
| MathUtil.Clamp | src/main/java/frc/robot/subsystems/arm/ArmSubsystem.java:155 | the result lies in [low, high], equals the value when it is already in range, and is the nearer bound otherwise |
| MathUtil.ClampIdempotent | src/main/java/frc/robot/subsystems/arm/ArmSubsystem.java:163 | clamping an already clamped value changes nothing |
| MathUtil.ApplyDeadband | src/main/java/frc/robot/arm/ArmTeleopCommand.java:47-48 | the result is 0 exactly when the input is within the deadband; outside it the sign is kept; [-1, 1] maps into [-1, 1] |
| MathUtil.DeadbandScaled | src/main/java/frc/robot/arm/ArmTeleopCommand.java:48 | the rescaling above the band keeps the sign, maps the remaining range onto [-1, 1] and reaches full scale at full-scale input |
| MathUtil.DeadbandThenClamp | src/main/java/frc/robot/arm/ArmTeleopCommand.java:47-49 | the joystick output lies in [-1, 1], is 0 exactly inside the band, keeps the input's sign outside it, and is ±1 for any input at or beyond full scale |
| MathUtil.DeadbandThenClampExamples | src/main/java/frc/robot/wheel/WheelTeleopCommand.java:35-37 | an input of 0.05 gives 0 and an input of 1.5 gives 1 with a deadband of 0.1 |
| Arm.DegreesPerRotationIsExact | src/main/java/frc/robot/subsystems/arm/ArmSubsystem.java:22 | the gearbox and sprocket ratio gives exactly 1.8 degrees per motor rotation |
| Arm.AbsolutePosition | src/main/java/frc/robot/subsystems/arm/ArmSubsystem.java:100-108 | the homed position differs from the offset reading by -1, 0 or +1 rotation, lies in (-0.5, 0.5] for any reading within 1.5 rotations, and is the reading itself when already in (-0.5, 0.5] |
| Arm.AbsolutePositionOfReading | src/main/java/frc/robot/subsystems/arm/ArmSubsystem.java:100-108 | every absolute-encoder reading in [0, 1) homes into (-0.5, 0.5] |
| Arm.SafetyLimit | src/main/java/frc/robot/subsystems/arm/ArmSubsystem.java:191-201 | the reason is "MIN" exactly below the minimum with a negative request and "MAX" exactly above the maximum with a positive one; a limited output becomes 0; otherwise it passes through; the applied output never drives further past a limit and is never larger in magnitude |
| Arm.SafetyLimitExamples | src/main/java/frc/robot/subsystems/arm/ArmSubsystem.java:191-201 | -0.5 at -1 degree is limited with reason "MIN"; -0.5 at 50 degrees passes through |
| Arm.ArmSubsystem.constructor | src/main/java/frc/robot/subsystems/arm/ArmSubsystem.java:54-98 | a new arm is in raw mode with output 0, brakes, is not homed, and has the default gains |
| Arm.ArmSubsystem.SetP | src/main/java/frc/robot/subsystems/arm/ArmSubsystem.java:122-124 | the proportional gain reads back as set |
| Arm.ArmSubsystem.SetG | src/main/java/frc/robot/subsystems/arm/ArmSubsystem.java:130-132 | the feedforward is rebuilt with the new gravity gain and the old velocity gain |
| Arm.ArmSubsystem.SetV | src/main/java/frc/robot/subsystems/arm/ArmSubsystem.java:138-140 | the feedforward is rebuilt with the new velocity gain and the old gravity gain |
| Arm.ArmSubsystem.SetBrakeEnabled | src/main/java/frc/robot/subsystems/arm/ArmSubsystem.java:142-148 | the flag and the idle mode of both motors follow the new value |
| Arm.ArmSubsystem.SetTargetDegrees | src/main/java/frc/robot/subsystems/arm/ArmSubsystem.java:150-152 | closed-loop target at the clamped angle with zero velocity, always within the angle limits |
| Arm.ArmSubsystem.SetTargetDegreesAndVelocity | src/main/java/frc/robot/subsystems/arm/ArmSubsystem.java:154-158 | closed-loop target with the angle clamped into the limits and the velocity as given; an in-range angle is kept exactly; the raw output is dropped |
| Arm.ArmSubsystem.SetTargetOutput | src/main/java/frc/robot/subsystems/arm/ArmSubsystem.java:160-164 | raw mode with the output saturated into [-1, 1]; the closed-loop target is dropped |
| Arm.ArmSubsystem.IsAtSetpoint | src/main/java/frc/robot/subsystems/arm/ArmSubsystem.java:166-172 | never at setpoint in raw mode; in closed-loop mode at setpoint exactly when the angle error is below the tolerance |
| Arm.ArmSubsystem.Periodic | src/main/java/frc/robot/subsystems/arm/ArmSubsystem.java:175-212 | homes both encoders to the same absolute position on the first tick only; converts the readings to degrees; in raw mode sends the limiter's output and records its reason; in closed-loop mode leaves the target alone and sends the angle in motor rotations with the feedforward for the measured angle in radians |
| Wheel.WheelSubsystem.constructor | src/main/java/frc/robot/wheel/WheelSubsystem.java:42-79 | a new wheel coasts, is in raw mode with output 0, and has the default gains |
| Wheel.WheelSubsystem.SetP | src/main/java/frc/robot/wheel/WheelSubsystem.java:85-87 | the proportional gain reads back as set |
| Wheel.WheelSubsystem.SetV | src/main/java/frc/robot/wheel/WheelSubsystem.java:93-95 | the feedforward is rebuilt with the new velocity gain, which reads back as set |
| Wheel.WheelSubsystem.SetTargetOutput | src/main/java/frc/robot/wheel/WheelSubsystem.java:97-100 | raw mode with the output saturated into [-1, 1]; the RPM target is dropped |
| Wheel.WheelSubsystem.SetTargetRotationsPerMinute | src/main/java/frc/robot/wheel/WheelSubsystem.java:102-105 | velocity mode with the RPM saturated into [-5600, 5600]; the raw output is dropped |
| Wheel.WheelSubsystem.SetBrakeEnabled | src/main/java/frc/robot/wheel/WheelSubsystem.java:107-112 | the idle mode follows the flag; it is written once when the flag changes and not at all when it does not |
| Wheel.WheelSubsystem.Periodic | src/main/java/frc/robot/wheel/WheelSubsystem.java:115-127 | converts RPM to feet per second; in velocity mode sends the RPM with the feedforward for it; in raw mode sends the duty cycle; the target is unchanged |
| ArmTeleop.ArmTeleopCommand.constructor | src/main/java/frc/robot/arm/ArmTeleopCommand.java:23-36 | the command drives the given arm, starts with output 0 and no held angle |
| ArmTeleop.ArmTeleopCommand.Initialize | src/main/java/frc/robot/arm/ArmTeleopCommand.java:39-41 | the hold latch is cleared |
| ArmTeleop.ArmTeleopCommand.Execute | src/main/java/frc/robot/arm/ArmTeleopCommand.java:44-68 | the output is the deadbanded, clamped stick, 0 exactly inside the band; with zero output above the hold angle the latch keeps its first angle and the arm holds it closed-loop; otherwise the latch is cleared and the arm runs open-loop at the output |
| ArmTeleop.ArmTeleopCommand.End | src/main/java/frc/robot/arm/ArmTeleopCommand.java:71-83 | the output and the latch are cleared; above the hold angle the arm holds its current angle, otherwise it gets output 0 |
| WheelTeleop.WheelTeleopCommand.constructor | src/main/java/frc/robot/wheel/WheelTeleopCommand.java:20-31 | the command drives the given wheel and starts with output 0 |
| WheelTeleop.WheelTeleopCommand.Execute | src/main/java/frc/robot/wheel/WheelTeleopCommand.java:34-39 | the wheel runs open-loop at the deadbanded, clamped stick value, which lies in [-1, 1] |
| WheelTeleop.WheelTeleopCommand.End | src/main/java/frc/robot/wheel/WheelTeleopCommand.java:42-44 | the wheel is stopped with output 0 |
| WheelTeleop.WheelTeleopCommand.SetTargetOutput | src/main/java/frc/robot/wheel/WheelTeleopCommand.java:46-49 | the output is recorded and the wheel's target is that output saturated into [-1, 1] |
| ArmTuning.DefaultTargetPositionIsBelowOneDegree | src/main/java/frc/robot/arm/ArmTuningCommand.java:10 | the default setpoint, 40 degrees converted to radians, is about 0.698, well under one degree |
| ArmTuning.ArmTuningCommand.constructor | src/main/java/frc/robot/arm/ArmTuningCommand.java:19-36 | starts disabled with the default setpoint, zero setpoint velocity and target 0 |
| ArmTuning.ArmTuningCommand.SetSetpointDegrees | src/main/java/frc/robot/arm/ArmTuningCommand.java:38-41 | the setpoint and the moving target both become the new angle |
| ArmTuning.ArmTuningCommand.SetSetpointVelocity | src/main/java/frc/robot/arm/ArmTuningCommand.java:33 | the setpoint velocity reads back as set |
| ArmTuning.ArmTuningCommand.SetEnabled | src/main/java/frc/robot/arm/ArmTuningCommand.java:43-51 | no change when the flag is already as asked or the robot is not in teleop; enabling restarts the target from the setpoint |
| ArmTuning.ArmTuningCommand.Execute | src/main/java/frc/robot/arm/ArmTuningCommand.java:54-63 | when enabled the arm gets the clamped target and the setpoint velocity, and the target advances by velocity times 0.02 s only when the velocity is non-zero; when disabled the arm gets output 0 |
| ArmTrapezoidTuning.ArmTrapezoidTuningCommand.constructor | src/main/java/frc/robot/commands/arm/ArmTrapezoidTuningCommand.java:26-46 | starts disabled with target 30 degrees at rest and the default velocity and acceleration limits, with a profile built from them |
| ArmTrapezoidTuning.ArmTrapezoidTuningCommand.SetEnabled | src/main/java/frc/robot/commands/arm/ArmTrapezoidTuningCommand.java:48-53 | no change outside teleop or when already as asked; in teleop the flag follows the request |
| ArmTrapezoidTuning.ArmTrapezoidTuningCommand.SetMaxVelocity | src/main/java/frc/robot/commands/arm/ArmTrapezoidTuningCommand.java:55-59 | a new velocity limit rebuilds the profile and keeps the acceleration limit; the same value changes nothing |
| ArmTrapezoidTuning.ArmTrapezoidTuningCommand.SetMaxAcceleration | src/main/java/frc/robot/commands/arm/ArmTrapezoidTuningCommand.java:61-65 | a new acceleration limit rebuilds the profile and keeps the velocity limit; the same value changes nothing |
| ArmTrapezoidTuning.ArmTrapezoidTuningCommand.UpdateProfile | src/main/java/frc/robot/commands/arm/ArmTrapezoidTuningCommand.java:67-71 | both limits are stored and the profile is built from exactly those limits |
| ArmTrapezoidTuning.ArmTrapezoidTuningCommand.SetTargetDegrees | src/main/java/frc/robot/commands/arm/ArmTrapezoidTuningCommand.java:73-76 | the goal is the given angle at rest |
| ArmTrapezoidTuning.ArmTrapezoidTuningCommand.Execute | src/main/java/frc/robot/commands/arm/ArmTrapezoidTuningCommand.java:79-89 | samples the arm's angle and velocity; when enabled, steps the profile one period toward the goal and sends the arm the clamped next position and its velocity; when disabled, stops the arm |
| ArmTrapezoidTuning.ArmTrapezoidTuningCommand.End | src/main/java/frc/robot/commands/arm/ArmTrapezoidTuningCommand.java:92-95 | the next state is forgotten and the arm gets output 0 |
| WheelTuning.WheelTuningCommand.constructor | src/main/java/frc/robot/commands/wheel/WheelTuningCommand.java:19-33 | starts disabled with a setpoint of 250 RPM |
| WheelTuning.WheelTuningCommand.SetSetpointRevolutionsPerMinute | src/main/java/frc/robot/commands/wheel/WheelTuningCommand.java:31 | the setpoint reads back as set |
| WheelTuning.WheelTuningCommand.SetEnabled | src/main/java/frc/robot/commands/wheel/WheelTuningCommand.java:35-40 | no change outside teleop or when already as asked; in teleop the flag follows the request |
| WheelTuning.WheelTuningCommand.Execute | src/main/java/frc/robot/commands/wheel/WheelTuningCommand.java:43-49 | when enabled the wheel gets the setpoint saturated to ±5600 RPM; when disabled it gets output 0 |
| WheelTuning.WheelTuningCommand.End | src/main/java/frc/robot/commands/wheel/WheelTuningCommand.java:52-54 | the wheel gets output 0 |
| Pipelines.IdsAreDistinct | src/main/java/frc/robot/subsystems/vision/LimelightPipeline.java:7-9 | no two pipelines share an id |
| Pipelines.FirstWithId | src/main/java/frc/robot/subsystems/vision/LimelightPipeline.java:18-22 | a found pipeline is in the list and has the id; nothing is found exactly when no pipeline in the list has the id |
| Pipelines.FirstWithIdIsFirst | src/main/java/frc/robot/subsystems/vision/LimelightPipeline.java:18-22 | the search returns the earliest pipeline with the id |
| Pipelines.ForId | src/main/java/frc/robot/subsystems/vision/LimelightPipeline.java:17-24 | ids -1, 0 and 1 map to the pipeline with that id; every other id maps to UNKNOWN |
| Pipelines.ForIdOfId | src/main/java/frc/robot/subsystems/vision/LimelightPipeline.java:17-24 | looking up a pipeline's own id gives that pipeline back |
| PoseEstimates.GetDouble | src/main/java/frc/robot/subsystems/vision/PoseEstimate.java:36-38 | the element at the index when it exists, 0 otherwise |
| PoseEstimates.GetPose | src/main/java/frc/robot/subsystems/vision/PoseEstimate.java:29-34 | x, y and the heading in degrees come from elements 0, 1 and 5 |
| PoseEstimates.TruncateToInt | src/main/java/frc/robot/subsystems/vision/PoseEstimate.java:23 | the int cast truncates toward zero |
| PoseEstimates.Decode | src/main/java/frc/robot/subsystems/vision/PoseEstimate.java:18-27 | the pose, latency, truncated tag count, tag span, distance and area come from their fixed slots, missing slots read as 0, and the timestamp is microseconds to seconds minus latency in milliseconds |
| PoseEstimates.Encode | src/main/java/frc/robot/subsystems/vision/PoseEstimate.java:18-27 | the MegaTag layout has eleven slots |
| PoseEstimates.DecodeEncode | src/main/java/frc/robot/subsystems/vision/PoseEstimate.java:18-34 | decoding an encoded estimate gives back its pose and fields, with the tag count truncated |
| PoseEstimates.DecodeIgnoresTrailingEntries | src/main/java/frc/robot/subsystems/vision/PoseEstimate.java:18-27 | entries after the eleventh do not affect the decoded estimate |
| PoseEstimates.DecodeExample | src/main/java/frc/robot/subsystems/vision/PoseEstimate.java:18-27 | a sample array at 5 s with 20 ms latency decodes to timestamp 4.98 s and 4 tags |
| PoseEstimates.DecodeShortestArray | src/main/java/frc/robot/subsystems/vision/PoseEstimate.java:18-27 | a six-element array decodes with latency, tag count, span, distance and area all 0 |
| Limelight.EstimateFromEntry | src/main/java/frc/robot/subsystems/vision/LimelightSubsystem.java:57-63 | no estimate exactly when the entry or its array is missing or the array has fewer than six elements; otherwise the decoded array |
| Limelight.ShortArrayGivesNoEstimate | src/main/java/frc/robot/subsystems/vision/LimelightSubsystem.java:59-60 | a five-element array gives no estimate |
| Limelight.LimelightSubsystem.constructor | src/main/java/frc/robot/subsystems/vision/LimelightSubsystem.java:26-36 | the pipeline entry starts at -1, the target entries at 0, and the array entries at the empty array |
| Limelight.LimelightSubsystem.SetPipeline | src/main/java/frc/robot/subsystems/vision/LimelightSubsystem.java:38-40 | the entry holds the pipeline's id, and reading the current pipeline back gives the pipeline that was set |
| Limelight.LimelightSubsystem.GetCurrentPipeline | src/main/java/frc/robot/subsystems/vision/LimelightSubsystem.java:42-44 | an entry holding a pipeline's id reads back as that pipeline; the int cast truncates toward zero, so any entry strictly between -1 and 1 reads as DEFAULT_APRILTAG and any entry of magnitude 2 or more reads as UNKNOWN |
| Limelight.LimelightSubsystem.UpdateTargetInfo | src/main/java/frc/robot/subsystems/vision/LimelightSubsystem.java:46-55 | with a positive target count the info holds the offsets and area; otherwise it is cleared |
| Limelight.LimelightSubsystem.Periodic | src/main/java/frc/robot/subsystems/vision/LimelightSubsystem.java:66-78 | with a supplier and a pose, the orientation entry is the heading in degrees followed by five zeros; otherwise it is unchanged |
| Targets.TargetInfo.constructor | src/main/java/frc/robot/subsystems/vision/TargetInfo.java:3-8 | a new info has no target and zero offsets and area |
| Targets.TargetInfo.SetNoTarget | src/main/java/frc/robot/subsystems/vision/TargetInfo.java:10-15 | no target and all readings 0; clearing a cleared info changes nothing |
| Targets.TargetInfo.SetTarget | src/main/java/frc/robot/subsystems/vision/TargetInfo.java:17-22 | has a target, with exactly the given offsets and area |
| MockSwerve.MockSwerveDriveSubsystem.constructor | src/main/java/frc/robot/swerve/MockSwerveDriveSubsystem.java:15-24 | starts at the origin, stopped, having received nothing |
| MockSwerve.MockSwerveDriveSubsystem.AcceptPoseEstimate | src/main/java/frc/robot/swerve/MockSwerveDriveSubsystem.java:32-34 | the pose reads back as the estimate's pose and the estimate is logged once |
| MockSwerve.MockSwerveDriveSubsystem.DriveRobotRelative | src/main/java/frc/robot/swerve/MockSwerveDriveSubsystem.java:37-38 | the request is logged and nothing else changes; the speed is not stored |
| MockSwerve.MockSwerveDriveSubsystem.Periodic | src/main/java/frc/robot/swerve/MockSwerveDriveSubsystem.java:41-48 | a stopped drive keeps its pose; a moving one advances by one 0.02 s step, with the new heading built from radians read as degrees; since the speed is never stored, the pose never moves |
| AlignToTarget.AlignToTargetCommand.constructor | src/main/java/frc/robot/limelight/AlignToTargetCommand.java:34-58 | uses the given Limelight and drive, has the default factor, maximum speed and tolerance, zero speeds, no target, and is not done |
| AlignToTarget.AlignToTargetCommand.Initialize | src/main/java/frc/robot/limelight/AlignToTargetCommand.java:61-66 | selects the pipeline, clears the target (no target, both offsets and the area 0) and the rotation speed, and is not done |
| AlignToTarget.AlignToTargetCommand.Execute | src/main/java/frc/robot/limelight/AlignToTargetCommand.java:69-77 | refreshes all four target fields from the Limelight (the offsets and area when the count is positive, all zero otherwise); with a target outside the tolerance, rotates at factor times offset and sends exactly one drive request; otherwise sends none and becomes done; done is never cleared |
| AlignToTarget.AlignToTargetCommand.End | src/main/java/frc/robot/limelight/AlignToTargetCommand.java:80-84 | the rotation speed is zeroed, the target is cleared (no target, both offsets and the area 0) and the command is done |
| AprilTagPoseCommand.AprilTagPoseEstimateCommand.constructor | src/main/java/frc/robot/commands/limelight/AprilTagPoseEstimateCommand.java:20-31 | uses the given Limelight and drive, with no pose and logging off |
| AprilTagPoseCommand.AprilTagPoseEstimateCommand.Initialize | src/main/java/frc/robot/commands/limelight/AprilTagPoseEstimateCommand.java:34-37 | the pose flag is cleared and the selected pipeline is set |
| AprilTagPoseCommand.AprilTagPoseEstimateCommand.Execute | src/main/java/frc/robot/commands/limelight/AprilTagPoseEstimateCommand.java:40-61 | the pose flag says whether an estimate was read; an estimate is forwarded to the drive exactly once, and without one nothing is forwarded |
| AprilTagPoseCommand.AprilTagPoseEstimateCommand.End | src/main/java/frc/robot/commands/limelight/AprilTagPoseEstimateCommand.java:64-66 | the pose flag is cleared |
| AprilTagPoseTracking.AprilTagPoseEstimateCommand.constructor | src/main/java/frc/robot/limelight/AprilTagPoseEstimateCommand.java:17-30 | uses the given Limelight and drive, with no last pose and logging off |
| AprilTagPoseTracking.AprilTagPoseEstimateCommand.Initialize | src/main/java/frc/robot/limelight/AprilTagPoseEstimateCommand.java:33-36 | the last pose is cleared and the selected pipeline is set |
| AprilTagPoseTracking.AprilTagPoseEstimateCommand.Execute | src/main/java/frc/robot/limelight/AprilTagPoseEstimateCommand.java:39-58 | the last pose is this tick's estimate; an estimate is forwarded to the drive exactly once, and without one nothing is forwarded |
| AprilTagPoseTracking.AprilTagPoseEstimateCommand.End | src/main/java/frc/robot/limelight/AprilTagPoseEstimateCommand.java:61-63 | the last pose is cleared |

## Left out

- Hardware I/O. Motor controllers, encoders and NetworkTables entries are fields and parameters. Sensor reads are `Periodic` parameters. Motor writes are recorded in `lastSent`, `idleMode` and the encoder-homing fields.
- Motor configuration. Current limits, ramp rates, inversion, follow mode and velocity conversion factors are written once in the constructors. Only the idle mode is modelled.
- Library math. `ArmFeedforward.calculate`, `SimpleMotorFeedforward.calculate` and `TrapezoidProfile.calculate` are not defined here. They are passed in as functions, and the contracts state what each command sends them.
- Floating point. Values are exact reals, so rounding, NaN and infinities are not modelled.
- NaN as a mode marker. It is replaced by the `ArmTarget` and `WheelTarget` datatypes.
- PoseEstimates.TruncateToInt: the `(int)` cast is truncation toward zero on reals. Java's saturation at the `int` range and its mapping of NaN to 0 are not modelled.
- Teleop checks. `DriverStation.isTeleop()` is the `isTeleop` parameter of the `SetEnabled` methods.
- The pipeline chooser. The dashboard selection is the `selected` parameter of `Initialize`.
- Dashboard bindings. `SmarterDashboard` `putData` and `putChooser`, and `LimelightPipeline.makeChooser`, are left out. So are the `log` printf blocks in the pose-estimate commands. The dashboard setters that lambdas reach are modelled as methods: `SetSetpointVelocity` and `SetSetpointRevolutionsPerMinute`.
- WheelSubsystem `rpmCommand` and `stopCommand`. They only wrap setters in scheduler commands.
- Arm.ArmSubsystem.Periodic: homing reads the absolute encoder twice, once for each relative encoder. The model takes one sample per tick, so both encoders get the same value.
- Arm.ArmSubsystem.Periodic: it keeps the angle-unit mix of the code as written. The feedforward gets the measured angle in radians, while the closed-loop target is sent in degrees divided by degrees per rotation.
- ArmTuning.DefaultTargetPositionIsBelowOneDegree: the default setpoint is `degreesToRadians(40)` stored in a field read as degrees. It is kept literally as about 0.698 degrees.
- Arm.ArmSubsystem.SetTargetDegreesAndVelocity: it keeps the code's lower clamp bound of `-MIN_ANGLE`. This equals `MIN_ANGLE` only because `MIN_ANGLE` is 0.
- AlignToTarget.AlignToTargetCommand: the command never overrides `isFinished`, so it runs until interrupted. `done` is dashboard state only. `maxSpeed` is stored but never applied to the rotation speed.
- MockSwerve.MockSwerveDriveSubsystem.Periodic: `lastSpeed != STOP` is a reference comparison in Java and a value comparison here. The two agree because `lastSpeed` is only ever assigned `STOP` itself.
- MockSwerve.MockSwerveDriveSubsystem.Periodic: the step uses `Rotation2d` in degrees. The heading is converted to radians with the exact-real `PI`.
- Robot wiring is not part of this model: `Robot.java`, the joystick helpers (`JoystickUtils`) and `SmarterDashboard`.
- The `SwerveDriveSubsystem` interface is not part of this model. Every drive is the mock swerve drive.
- `AlignToDirectionCommand` and `DriveAtFixedSpeedCommand` are not part of this model.
- Duplicate class paths. The arm and wheel commands import `ArmSubsystem`, `WheelSubsystem` and the Limelight types from other packages. Those packages are not part of this model, and the commands are modelled against the classes that are.
