/** A dashboard-driven arm tuning command that follows a trapezoidal motion
    profile toward a target angle. */
module ArmTrapezoidTuning {
  import opened Wrappers
  import opened MathUtil
  import opened Arm

  const DEFAULT_MAX_VELOCITY: real := 30.0
  const DEFAULT_MAX_ACCELERATION: real := 30.0
  const DEFAULT_SETPOINT: real := 30.0
  const DT_SECS: real := 0.02

  /** A profile state: position (degrees) and velocity. */
  datatype State = State(position: real, velocity: real)

  datatype Constraints = Constraints(maxVelocity: real, maxAcceleration: real)

  /** A TrapezoidProfile is fixed by its constraints. */
  datatype TrapezoidProfile = TrapezoidProfile(constraints: Constraints)

  class ArmTrapezoidTuningCommand {
    const arm: ArmSubsystem
    var currentState: State
    var targetState: State
    /** The last profile step, None when the command is idle. */
    var nextState: Option<State>
    var maxVelocity: real
    var maxAcceleration: real
    var profile: TrapezoidProfile
    var isEnabled: bool

    /** The profile is always the one built from the current limits. */
    ghost predicate Valid()
      reads this
    {
      profile == TrapezoidProfile(Constraints(maxVelocity, maxAcceleration))
    }

    constructor (arm: ArmSubsystem)
      ensures Valid() && this.arm == arm && !isEnabled
      ensures targetState == State(DEFAULT_SETPOINT, 0.0)
      ensures maxVelocity == DEFAULT_MAX_VELOCITY && maxAcceleration == DEFAULT_MAX_ACCELERATION
      ensures currentState == State(0.0, 0.0) && nextState == None
    {
      this.arm := arm;
      currentState := State(0.0, 0.0);
      targetState := State(0.0, 0.0);
      nextState := None;
      isEnabled := false;
      maxVelocity, maxAcceleration := 0.0, 0.0;
      profile := TrapezoidProfile(Constraints(0.0, 0.0));
      new;
      SetTargetDegrees(DEFAULT_SETPOINT);
      UpdateProfile(DEFAULT_MAX_VELOCITY, DEFAULT_MAX_ACCELERATION);
    }

    /** Ignored when nothing would change or the robot is not in teleop. */
    method SetEnabled(enabled: bool, isTeleop: bool)
      modifies this`isEnabled
      ensures enabled == old(isEnabled) || !isTeleop ==> unchanged(this)
      ensures isTeleop ==> isEnabled == enabled
    {
      if enabled == isEnabled || !isTeleop {
        return;
      }
      isEnabled := enabled;
    }

    /** Rebuilds the profile only when the velocity limit changes. */
    method SetMaxVelocity(newVelocity: real)
      requires Valid()
      modifies this`maxVelocity, this`maxAcceleration, this`profile
      ensures Valid()
      ensures maxVelocity == newVelocity && maxAcceleration == old(maxAcceleration)
      ensures newVelocity == old(maxVelocity) ==> unchanged(this)
    {
      if newVelocity != maxVelocity {
        UpdateProfile(newVelocity, maxAcceleration);
      }
    }

    /** Rebuilds the profile only when the acceleration limit changes. */
    method SetMaxAcceleration(newAcceleration: real)
      requires Valid()
      modifies this`maxVelocity, this`maxAcceleration, this`profile
      ensures Valid()
      ensures maxAcceleration == newAcceleration && maxVelocity == old(maxVelocity)
      ensures newAcceleration == old(maxAcceleration) ==> unchanged(this)
    {
      if newAcceleration != maxAcceleration {
        UpdateProfile(maxVelocity, newAcceleration);
      }
    }

    method UpdateProfile(newVelocity: real, newAcceleration: real)
      modifies this`maxVelocity, this`maxAcceleration, this`profile
      ensures Valid()
      ensures maxVelocity == newVelocity && maxAcceleration == newAcceleration
    {
      maxVelocity := newVelocity;
      maxAcceleration := newAcceleration;
      profile := TrapezoidProfile(Constraints(maxVelocity, maxAcceleration));
    }

    /** The target is a position at rest. */
    method SetTargetDegrees(degrees: real)
      modifies this`targetState
      ensures targetState == State(degrees, 0.0)
    {
      targetState := targetState.(position := degrees);
      targetState := targetState.(velocity := 0.0);
    }

    /** One tick. `calculate` is TrapezoidProfile.calculate(profile, dt,
        current, goal), a library function this model does not define. */
    method Execute(calculate: (TrapezoidProfile, real, State, State) -> State)
      modifies this`currentState, this`nextState, arm`target
      ensures currentState == State(arm.currentDegrees, arm.currentVelocity)
      ensures isEnabled ==>
                && nextState == Some(calculate(profile, DT_SECS, currentState, targetState))
                && arm.target == ClosedLoop(Clamp(nextState.value.position, -MIN_ANGLE, MAX_ANGLE),
                                            nextState.value.velocity)
      ensures !isEnabled ==> nextState == None && arm.target == RawOutput(0.0)
    {
      currentState := currentState.(position := arm.GetCurrentDegrees());
      currentState := currentState.(velocity := arm.GetCurrentVelocity());
      if isEnabled {
        var next := calculate(profile, DT_SECS, currentState, targetState);
        nextState := Some(next);
        arm.SetTargetDegreesAndVelocity(next.position, next.velocity);
      } else {
        nextState := None;
        arm.SetTargetOutput(0.0);
      }
    }

    method End(interrupted: bool)
      modifies this`nextState, arm`target
      ensures nextState == None && arm.target == RawOutput(0.0)
    {
      nextState := None;
      arm.SetTargetOutput(0.0);
    }
  }
}
