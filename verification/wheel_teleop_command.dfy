/** Teleop control of a wheel: the joystick percentage, deadbanded and
    clamped, is the wheel's raw output. */
module WheelTeleop {
  import opened MathUtil
  import opened Wheel

  const DEADBAND: real := 0.1

  class WheelTeleopCommand {
    const wheel: WheelSubsystem
    var lastOutput: real

    constructor (wheel: WheelSubsystem)
      ensures this.wheel == wheel && lastOutput == 0.0
    {
      this.wheel := wheel;
      lastOutput := 0.0;
    }

    /** One tick: the processed stick value is stored and sent as raw output. */
    method Execute(percent: real)
      modifies this`lastOutput, wheel`target
      ensures lastOutput == DeadbandThenClamp(percent, DEADBAND)
      ensures -1.0 <= lastOutput <= 1.0
      ensures wheel.target == TargetOutput(lastOutput)
    {
      var p := percent;
      p := ApplyDeadband(p, DEADBAND);
      p := Clamp(p, -1.0, 1.0);
      SetTargetOutput(p);
    }

    method End(interrupted: bool)
      modifies this`lastOutput, wheel`target
      ensures lastOutput == 0.0 && wheel.target == TargetOutput(0.0)
    {
      SetTargetOutput(0.0);
    }

    /** Stores the output and sends it to the wheel, which clamps it again. */
    method SetTargetOutput(output: real)
      modifies this`lastOutput, wheel`target
      ensures lastOutput == output
      ensures wheel.target == TargetOutput(Clamp(output, -1.0, 1.0))
      ensures -1.0 <= output <= 1.0 ==> wheel.target == TargetOutput(lastOutput)
    {
      lastOutput := output;
      wheel.SetTargetOutput(lastOutput);
    }
  }
}
