/** A dashboard-driven wheel tuning command: while enabled it holds the wheel
    at a setpoint RPM. */
module WheelTuning {
  import opened MathUtil
  import opened Wheel

  const DEFAULT_REVOLUTIONS_PER_MINUTE: real := 250.0

  class WheelTuningCommand {
    const wheel: WheelSubsystem
    var setpointRevolutionsPerMinute: real
    var isEnabled: bool

    constructor (wheel: WheelSubsystem)
      ensures this.wheel == wheel
      ensures setpointRevolutionsPerMinute == DEFAULT_REVOLUTIONS_PER_MINUTE && !isEnabled
    {
      this.wheel := wheel;
      setpointRevolutionsPerMinute := DEFAULT_REVOLUTIONS_PER_MINUTE;
      isEnabled := false;
    }

    method SetSetpointRevolutionsPerMinute(rpm: real)
      modifies this`setpointRevolutionsPerMinute
      ensures setpointRevolutionsPerMinute == rpm
    {
      setpointRevolutionsPerMinute := rpm;
    }

    /** Ignored when nothing would change or the robot is not in teleop. */
    method SetEnabled(enabled: bool, isTeleop: bool)
      modifies this`isEnabled
      ensures enabled == old(isEnabled) || !isTeleop ==> unchanged(this)
      ensures isTeleop ==> isEnabled == enabled
    {
      if enabled == isEnabled || !isTeleop {
        return;
      }
      isEnabled := enabled;
    }

    method Execute()
      modifies wheel`target
      ensures isEnabled ==> wheel.target == TargetRpm(Clamp(setpointRevolutionsPerMinute, -MAX_RPM, MAX_RPM))
      ensures !isEnabled ==> wheel.target == TargetOutput(0.0)
    {
      if isEnabled {
        wheel.SetTargetRotationsPerMinute(setpointRevolutionsPerMinute);
      } else {
        wheel.SetTargetOutput(0.0);
      }
    }

    method End(interrupted: bool)
      modifies wheel`target
      ensures wheel.target == TargetOutput(0.0)
    {
      wheel.SetTargetOutput(0.0);
    }
  }
}
