/** A spinning wheel driven by one motor: either a raw duty cycle in [-1, 1]
    or a velocity target in rotations per minute. */
module Wheel {
  import opened MathUtil
  import opened Hardware

  /** The encoder's velocity conversion factor; encoder configuration is not modelled. */
  const GEAR_RATIO: real := 1.0
  const WHEEL_CIRCUMFERENCE: real := 1.0

  // Safety limits
  const MAX_RPM: real := 5600.0

  // Tuning parameters
  const KP: real := 1.0
  const KV: real := 1.0

  /** The active setpoint; the two modes are exclusive by construction. */
  datatype WheelTarget =
    | TargetOutput(output: real)
    | TargetRpm(rpm: real)

  /** The coefficients of a SimpleMotorFeedforward (static, velocity). */
  datatype SimpleMotorFeedforward = SimpleMotorFeedforward(ks: real, kv: real)

  /** One tick's sensor reads: motor current and encoder velocity (wheel RPM). */
  datatype WheelSensors = WheelSensors(amps: real, rotationsPerMinute: real)

  class WheelSubsystem {
    var target: WheelTarget
    var ff: SimpleMotorFeedforward
    var kP: real
    var brakeEnabled: bool
    var idleMode: IdleMode
    /** How many times the motor's idle mode has been written since construction. */
    ghost var idleModeWrites: nat
    var currentOutputAmps: real
    var currentRotationsPerMinute: real
    var currentFeetPerSecond: real
    var lastFeedforward: real
    var lastSent: MotorCommand

    ghost predicate Valid()
      reads this
    {
      idleMode == IdleModeFor(brakeEnabled)
    }

    /** A new wheel coasts, is in raw mode with output 0 and has no RPM target. */
    constructor ()
      ensures Valid()
      ensures target == TargetOutput(0.0) && !brakeEnabled && idleMode == Coast
      ensures ff == SimpleMotorFeedforward(0.0, KV) && kP == KP
      ensures lastFeedforward == 0.0 && lastSent == NoCommand
    {
      idleMode := Coast;
      idleModeWrites := 2;
      brakeEnabled := false;
      kP := KP;
      ff := SimpleMotorFeedforward(0.0, KV);
      target := TargetOutput(0.0);
      lastFeedforward := 0.0;
      currentOutputAmps, currentRotationsPerMinute, currentFeetPerSecond := 0.0, 0.0, 0.0;
      lastSent := NoCommand;
    }

    function GetP(): real
      reads this
    {
      kP
    }

    method SetP(p: real)
      modifies this`kP
      ensures GetP() == p
    {
      kP := p;
    }

    function GetV(): real
      reads this
    {
      ff.kv
    }

    /** Rebuilds the feedforward with the new velocity gain. */
    method SetV(v: real)
      modifies this`ff
      ensures GetV() == v
      ensures ff == SimpleMotorFeedforward(0.0, v)
    {
      ff := SimpleMotorFeedforward(0.0, v);
    }

    /** Switches to raw mode with the output saturated into [-1, 1]; any RPM target is dropped. */
    method SetTargetOutput(output: real)
      modifies this`target
      ensures target == TargetOutput(Clamp(output, -1.0, 1.0))
      ensures -1.0 <= target.output <= 1.0
    {
      target := TargetOutput(Clamp(output, -1.0, 1.0));
    }

    /** Switches to velocity mode with the RPM saturated into [-MAX_RPM, MAX_RPM];
        any raw output is dropped. */
    method SetTargetRotationsPerMinute(rpm: real)
      modifies this`target
      ensures target == TargetRpm(Clamp(rpm, -MAX_RPM, MAX_RPM))
      ensures -MAX_RPM <= target.rpm <= MAX_RPM
    {
      target := TargetRpm(Clamp(rpm, -MAX_RPM, MAX_RPM));
    }

    /** Writes the idle mode only when the flag actually changes. */
    method SetBrakeEnabled(enabled: bool)
      requires Valid()
      modifies this`brakeEnabled, this`idleMode, this`idleModeWrites
      ensures Valid() && brakeEnabled == enabled
      ensures old(brakeEnabled) == enabled ==> unchanged(this)
      ensures old(brakeEnabled) != enabled ==> idleModeWrites == old(idleModeWrites) + 1
    {
      if brakeEnabled != enabled {
        idleMode := if enabled then Brake else Coast;
        idleModeWrites := idleModeWrites + 1;
        brakeEnabled := enabled;
      }
    }

    /** One control tick. `calculate` is SimpleMotorFeedforward.calculate(ff,
        velocity), a library function this model does not define. */
    method Periodic(sensors: WheelSensors, calculate: (SimpleMotorFeedforward, real) -> real)
      modifies this
      ensures target == old(target)
      ensures currentOutputAmps == sensors.amps
      ensures currentRotationsPerMinute == sensors.rotationsPerMinute
      ensures currentFeetPerSecond == sensors.rotationsPerMinute * WHEEL_CIRCUMFERENCE / 60.0
      ensures ff == old(ff) && kP == old(kP) && brakeEnabled == old(brakeEnabled)
      ensures idleMode == old(idleMode) && idleModeWrites == old(idleModeWrites)
      ensures target.TargetRpm? ==>
                && lastFeedforward == calculate(ff, target.rpm)
                && lastSent == VelocityReference(target.rpm, lastFeedforward)
      ensures target.TargetOutput? ==>
                lastSent == DutyCycle(target.output) && lastFeedforward == old(lastFeedforward)
    {
      currentOutputAmps := sensors.amps;
      currentRotationsPerMinute := sensors.rotationsPerMinute;
      currentFeetPerSecond := currentRotationsPerMinute * WHEEL_CIRCUMFERENCE / 60.0;

      match target {
        case TargetRpm(rpm) =>
          lastFeedforward := calculate(ff, rpm);
          lastSent := VelocityReference(rpm, lastFeedforward);
        case TargetOutput(output) =>
          lastSent := DutyCycle(output);
      }
    }
  }
}
