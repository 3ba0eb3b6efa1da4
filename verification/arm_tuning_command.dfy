/** A dashboard-driven arm tuning command: while enabled it moves a target
    angle at a constant velocity and sends it as a closed-loop setpoint. */
module ArmTuning {
  import opened MathUtil
  import opened Arm

  /** Units.degreesToRadians(40.0), stored as written in a field that is
      otherwise in degrees. */
  const DEFAULT_TARGET_POSITION: real := DegreesToRadians(40.0)
  const DT_SECS: real := 0.02

  /** The default "degrees" setpoint is 40 degrees expressed in radians, so
      as an angle in degrees it is below one degree. */
  lemma DefaultTargetPositionIsBelowOneDegree()
    ensures 0.69 < DEFAULT_TARGET_POSITION < 0.7
  {
  }

  class ArmTuningCommand {
    const arm: ArmSubsystem
    var setpointDegrees: real
    var setpointVelocity: real
    var targetDegrees: real
    var enabled: bool

    constructor (arm: ArmSubsystem)
      ensures this.arm == arm
      ensures setpointDegrees == DEFAULT_TARGET_POSITION && setpointVelocity == 0.0
      ensures targetDegrees == 0.0 && !enabled
    {
      this.arm := arm;
      setpointDegrees := DEFAULT_TARGET_POSITION;
      setpointVelocity := 0.0;
      targetDegrees := 0.0;
      enabled := false;
    }

    /** A new setpoint also becomes the current target. */
    method SetSetpointDegrees(newTarget: real)
      modifies this`setpointDegrees, this`targetDegrees
      ensures setpointDegrees == newTarget && targetDegrees == newTarget
    {
      setpointDegrees := newTarget;
      targetDegrees := setpointDegrees;
    }

    method SetSetpointVelocity(velocity: real)
      modifies this`setpointVelocity
      ensures setpointVelocity == velocity
    {
      setpointVelocity := velocity;
    }

    /** Ignored when nothing would change or the robot is not in teleop;
        enabling restarts the target from the setpoint, disabling keeps it. */
    method SetEnabled(shouldEnable: bool, isTeleop: bool)
      modifies this`enabled, this`targetDegrees
      ensures shouldEnable == old(enabled) || !isTeleop ==> unchanged(this)
      ensures shouldEnable != old(enabled) && isTeleop ==>
                && enabled == shouldEnable
                && targetDegrees == (if shouldEnable then setpointDegrees else old(targetDegrees))
    {
      if shouldEnable == enabled || !isTeleop {
        return;
      }
      if shouldEnable {
        targetDegrees := setpointDegrees;
      }
      enabled := shouldEnable;
    }

    /** One tick: when enabled, send (target, velocity) and then advance the
        target by one period of motion; when disabled, send raw 0. */
    method Execute()
      modifies this`targetDegrees, arm`target
      ensures enabled ==>
                && arm.target == ClosedLoop(Clamp(old(targetDegrees), -MIN_ANGLE, MAX_ANGLE), setpointVelocity)
                && targetDegrees == (if setpointVelocity != 0.0 then old(targetDegrees) + setpointVelocity * DT_SECS
                                     else old(targetDegrees))
      ensures !enabled ==> arm.target == RawOutput(0.0) && targetDegrees == old(targetDegrees)
    {
      if enabled {
        arm.SetTargetDegreesAndVelocity(targetDegrees, setpointVelocity);
        if setpointVelocity != 0.0 {
          targetDegrees := targetDegrees + setpointVelocity * DT_SECS;
        }
      } else {
        arm.SetTargetOutput(0.0);
      }
    }
  }
}
