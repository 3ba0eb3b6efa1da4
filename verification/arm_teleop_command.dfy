/** Teleop control of the arm: a joystick percentage drives the arm, and when
    the stick is released with the arm raised the arm holds the angle it had
    at the moment of release. */
module ArmTeleop {
  import opened Wrappers
  import opened MathUtil
  import opened Arm

  const DEADBAND: real := 0.1
  const MIN_DEGREES_FOR_HOLD: real := 1.0

  class ArmTeleopCommand {
    const arm: ArmSubsystem
    var lastOutput: real
    /** The latched hold angle, None while no hold is latched. */
    var lastHoldDegrees: Option<real>

    constructor (arm: ArmSubsystem)
      ensures this.arm == arm && lastOutput == 0.0 && lastHoldDegrees == None
    {
      this.arm := arm;
      lastOutput := 0.0;
      lastHoldDegrees := None;
    }

    /** A (re)started command has no latch. */
    method Initialize()
      modifies this`lastHoldDegrees
      ensures lastHoldDegrees == None
    {
      lastHoldDegrees := None;
    }

    /** One tick: deadband then clamp the stick; with a neutral stick and a
        raised arm, latch the current angle once per neutral episode and hold
        it; otherwise drop the latch and drive the processed output. */
    method Execute(percent: real)
      modifies this`lastOutput, this`lastHoldDegrees, arm`target
      ensures lastOutput == DeadbandThenClamp(percent, DEADBAND)
      ensures -1.0 <= lastOutput <= 1.0
      ensures lastOutput == 0.0 <==> -DEADBAND <= percent <= DEADBAND
      ensures lastOutput == 0.0 && arm.currentDegrees > MIN_DEGREES_FOR_HOLD ==>
                && lastHoldDegrees == (if old(lastHoldDegrees).Some? then old(lastHoldDegrees)
                                       else Some(arm.currentDegrees))
                && arm.target == ClosedLoop(Clamp(lastHoldDegrees.value, -MIN_ANGLE, MAX_ANGLE), 0.0)
      ensures !(lastOutput == 0.0 && arm.currentDegrees > MIN_DEGREES_FOR_HOLD) ==>
                && lastHoldDegrees == None
                && arm.target == RawOutput(lastOutput)
    {
      lastOutput := percent;
      lastOutput := ApplyDeadband(lastOutput, DEADBAND);
      lastOutput := Clamp(lastOutput, -1.0, 1.0);

      if lastOutput == 0.0 && arm.GetCurrentDegrees() > MIN_DEGREES_FOR_HOLD {
        if lastHoldDegrees.None? {
          lastHoldDegrees := Some(arm.GetCurrentDegrees());
        }
        arm.SetTargetDegrees(lastHoldDegrees.value);
      } else {
        lastHoldDegrees := None;
        arm.SetTargetOutput(lastOutput);
      }
    }

    /** Zero the output and drop the latch; hold the current angle if the arm
        is raised, otherwise command raw 0. */
    method End(interrupted: bool)
      modifies this`lastOutput, this`lastHoldDegrees, arm`target
      ensures lastOutput == 0.0 && lastHoldDegrees == None
      ensures arm.currentDegrees > MIN_DEGREES_FOR_HOLD ==>
                arm.target == ClosedLoop(Clamp(arm.currentDegrees, -MIN_ANGLE, MAX_ANGLE), 0.0)
      ensures arm.currentDegrees <= MIN_DEGREES_FOR_HOLD ==> arm.target == RawOutput(0.0)
    {
      lastOutput := 0.0;
      lastHoldDegrees := None;

      if arm.GetCurrentDegrees() > MIN_DEGREES_FOR_HOLD {
        arm.SetTargetDegrees(arm.GetCurrentDegrees());
      } else {
        arm.SetTargetOutput(0.0);
      }
    }
  }

  /** The hold-latch walk-through: release the stick at 10 degrees, drift to
      12 degrees with a stick inside the deadband, then push the stick. */
  method HoldLatchScenario()
  {
    var arm := new ArmSubsystem();
    var command := new ArmTeleopCommand(arm);
    var feedforward := (ff: ArmFeedforward, radians: real, velocity: real) => 0.0;
    command.Initialize();

    arm.Periodic(ArmSensors(0.0, 0.0, 10.0 / DEGREES_PER_ROTATION, 0.0), feedforward);
    assert arm.currentDegrees == 10.0;
    command.Execute(0.0);
    assert command.lastHoldDegrees == Some(10.0);
    assert arm.target == ClosedLoop(10.0, 0.0);

    arm.Periodic(ArmSensors(0.0, 0.0, 12.0 / DEGREES_PER_ROTATION, 0.0), feedforward);
    assert arm.currentDegrees == 12.0;
    command.Execute(0.05);
    assert command.lastHoldDegrees == Some(10.0);
    assert arm.target == ClosedLoop(10.0, 0.0);

    command.Execute(0.5);
    assert command.lastHoldDegrees == None;
    assert arm.target.RawOutput? && arm.target.output > 0.0;
  }
}
