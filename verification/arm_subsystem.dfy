/** The arm joint: a lead motor with an inverted follower, a relative encoder
    on each, an absolute through-bore encoder used once for homing, and a
    setpoint that is either a raw duty cycle or a closed-loop target in degrees. */
module Arm {
  import opened Wrappers
  import opened MathUtil
  import opened Hardware

  const ENCODER_OFFSET: real := 0.0
  /** 360 degrees over a 75:1 gearbox followed by a 64:24 sprocket. */
  const DEGREES_PER_ROTATION: real := 360.0 * (1.0 / (75.0 / (24.0 / 64.0)))
  const ERROR_TOLERANCE: real := 2.0

  // Safety limits
  const MIN_ANGLE: real := 0.0
  const MAX_ANGLE: real := 105.0

  // Tuning parameters
  const KP: real := 0.018
  const KG: real := 0.42
  const KV: real := 0.0

  lemma DegreesPerRotationIsExact()
    ensures DEGREES_PER_ROTATION == 1.8
  {
  }

  /** The active setpoint. The two modes are exclusive by construction: a raw
      output carries no closed-loop target and a closed-loop target carries no
      raw output. */
  datatype ArmTarget =
    | RawOutput(output: real)
    | ClosedLoop(degrees: real, velocity: real)

  /** The coefficients of an ArmFeedforward (static, gravity, velocity). */
  datatype ArmFeedforward = ArmFeedforward(ks: real, kg: real, kv: real)

  /** One tick's sensor reads: the absolute encoder (in rotations), the lead
      motor's current, and the lead relative encoder's position and velocity. */
  datatype ArmSensors = ArmSensors(absolutePosition: real, amps: real, rotations: real, rotationsPerMinute: real)

  /** The limiter's verdict: the output to apply and the reason ("", "MIN" or "MAX"). */
  datatype LimitResult = LimitResult(applied: real, reason: string)

  /** getAbsolutePosition: the absolute reading minus the offset, shifted by at
      most one whole rotation into (-0.5, 0.5]. */
  function AbsolutePosition(reading: real): (r: real)
    ensures r - (reading - ENCODER_OFFSET) in {-1.0, 0.0, 1.0}
    ensures -1.5 < reading - ENCODER_OFFSET <= 1.5 ==> -0.5 < r <= 0.5
    ensures -0.5 < reading - ENCODER_OFFSET <= 0.5 ==> r == reading - ENCODER_OFFSET
  {
    var initPos := reading - ENCODER_OFFSET;
    if initPos > 0.5 then initPos - 1.0
    else if initPos <= -0.5 then initPos + 1.0
    else initPos
  }

  /** A reading of the absolute encoder, which lies in [0, 1), homes into (-0.5, 0.5]. */
  lemma AbsolutePositionOfReading(reading: real)
    requires 0.0 <= reading < 1.0
    ensures -0.5 < AbsolutePosition(reading) <= 0.5
  {
  }

  /** The open-loop safety limiter: a request that would drive the arm further
      below MIN_ANGLE or further above MAX_ANGLE is replaced by 0. */
  function SafetyLimit(output: real, degrees: real): (r: LimitResult)
    ensures r.reason == "MIN" <==> degrees < MIN_ANGLE && output < 0.0
    ensures r.reason == "MAX" <==> degrees > MAX_ANGLE && output > 0.0
    ensures r.reason == "" || r.reason == "MIN" || r.reason == "MAX"
    ensures r.applied == (if r.reason == "" then output else 0.0)
    // the applied output never pushes further past a limit and is never larger
    ensures degrees < MIN_ANGLE ==> r.applied >= 0.0
    ensures degrees > MAX_ANGLE ==> r.applied <= 0.0
    ensures Abs(r.applied) <= Abs(output)
  {
    if degrees < MIN_ANGLE && output < 0.0 then LimitResult(0.0, "MIN")
    else if degrees > MAX_ANGLE && output > 0.0 then LimitResult(0.0, "MAX")
    else LimitResult(output, "")
  }

  /** A request below the minimum is limited; one inside the range passes through. */
  lemma SafetyLimitExamples()
    ensures SafetyLimit(-0.5, -1.0) == LimitResult(0.0, "MIN")
    ensures SafetyLimit(-0.5, 50.0) == LimitResult(-0.5, "")
  {
  }

  class ArmSubsystem {
    var target: ArmTarget
    var feedforward: ArmFeedforward
    var kP: real
    var brakeEnabled: bool
    /** The idle mode of both the lead and the follower motor. */
    var idleMode: IdleMode
    var initialized: bool
    /** The positions written to the two relative encoders by homing. */
    var leadEncoderSetTo: Option<real>
    var followEncoderSetTo: Option<real>
    var currentAmps: real
    var currentDegrees: real
    var currentVelocity: real
    var currentRotations: real
    var lastFeedforward: real
    var isLimited: string
    /** The last command written to the lead motor. */
    var lastSent: MotorCommand

    /** Both motors idle as the brake flag says; the encoders have been homed,
        to the same value, exactly when the arm is initialized. */
    ghost predicate Valid()
      reads this
    {
      && idleMode == IdleModeFor(brakeEnabled)
      && (initialized <==> leadEncoderSetTo.Some?)
      && followEncoderSetTo == leadEncoderSetTo
    }

    constructor ()
      ensures Valid()
      ensures target == RawOutput(0.0) && brakeEnabled && !initialized
      ensures feedforward == ArmFeedforward(0.0, KG, KV) && kP == KP
      ensures isLimited == "" && lastSent == NoCommand && lastFeedforward == 0.0
    {
      isLimited := "";
      kP := KP;
      feedforward := ArmFeedforward(0.0, KG, KV);
      initialized := false;
      leadEncoderSetTo, followEncoderSetTo := None, None;
      currentAmps, currentDegrees, currentVelocity, currentRotations := 0.0, 0.0, 0.0, 0.0;
      lastFeedforward := 0.0;
      lastSent := NoCommand;
      target := RawOutput(0.0);
      brakeEnabled, idleMode := true, Brake;
      new;
      SetTargetOutput(0.0);
      SetBrakeEnabled(true);
    }

    function GetCurrentDegrees(): real
      reads this
    {
      currentDegrees
    }

    function GetCurrentVelocity(): real
      reads this
    {
      currentVelocity
    }

    function GetP(): real
      reads this
    {
      kP
    }

    method SetP(p: real)
      modifies this`kP
      ensures GetP() == p
    {
      kP := p;
    }

    function GetG(): real
      reads this
    {
      feedforward.kg
    }

    /** Rebuilds the feedforward with a new gravity gain, keeping the velocity gain. */
    method SetG(g: real)
      modifies this`feedforward
      ensures GetG() == g && GetV() == old(GetV())
      ensures feedforward == ArmFeedforward(0.0, g, old(feedforward.kv))
    {
      feedforward := ArmFeedforward(0.0, g, feedforward.kv);
    }

    function GetV(): real
      reads this
    {
      feedforward.kv
    }

    /** Rebuilds the feedforward with a new velocity gain, keeping the gravity gain. */
    method SetV(v: real)
      modifies this`feedforward
      ensures GetV() == v && GetG() == old(GetG())
      ensures feedforward == ArmFeedforward(0.0, old(feedforward.kg), v)
    {
      feedforward := ArmFeedforward(0.0, feedforward.kg, v);
    }

    /** Sets the flag and the idle mode of both motors, unconditionally. */
    method SetBrakeEnabled(newValue: bool)
      modifies this`brakeEnabled, this`idleMode
      ensures brakeEnabled == newValue && idleMode == IdleModeFor(newValue)
    {
      brakeEnabled := newValue;
      idleMode := if newValue then Brake else Coast;
    }

    method SetTargetDegrees(degrees: real)
      modifies this`target
      ensures target == ClosedLoop(Clamp(degrees, -MIN_ANGLE, MAX_ANGLE), 0.0)
      ensures MIN_ANGLE <= target.degrees <= MAX_ANGLE
    {
      SetTargetDegreesAndVelocity(degrees, 0.0);
    }

    /** Switches to closed-loop mode with the angle clamped into the safety
        limits and the velocity taken as given; any raw output is dropped. */
    method SetTargetDegreesAndVelocity(degrees: real, velocity: real)
      modifies this`target
      ensures target == ClosedLoop(Clamp(degrees, -MIN_ANGLE, MAX_ANGLE), velocity)
      ensures MIN_ANGLE <= target.degrees <= MAX_ANGLE
      ensures MIN_ANGLE <= degrees <= MAX_ANGLE ==> target.degrees == degrees
    {
      target := ClosedLoop(Clamp(degrees, -MIN_ANGLE, MAX_ANGLE), velocity);
    }

    /** Switches to raw mode with the output saturated into [-1, 1]; any
        closed-loop target is dropped. */
    method SetTargetOutput(output: real)
      modifies this`target
      ensures target == RawOutput(Clamp(output, -1.0, 1.0))
      ensures -1.0 <= target.output <= 1.0
    {
      target := RawOutput(Clamp(output, -1.0, 1.0));
    }

    /** True only in closed-loop mode, when the measured angle is within
        ERROR_TOLERANCE of the target angle. */
    function IsAtSetpoint(): (r: bool)
      reads this
      ensures target.RawOutput? ==> !r
      ensures target.ClosedLoop? ==>
                (r <==> -ERROR_TOLERANCE < currentDegrees - target.degrees < ERROR_TOLERANCE)
    {
      match target
      case ClosedLoop(degrees, _) => Abs(currentDegrees - degrees) < ERROR_TOLERANCE
      case RawOutput(_) => false
    }

    /** One control tick. `calculate` is ArmFeedforward.calculate(ff, radians,
        velocity), a library function this model does not define. */
    method Periodic(sensors: ArmSensors, calculate: (ArmFeedforward, real, real) -> real)
      requires Valid()
      modifies this
      ensures Valid()
      // homing happens on the first tick only, and is never undone
      ensures initialized
      ensures old(initialized) ==> leadEncoderSetTo == old(leadEncoderSetTo)
      ensures !old(initialized) ==> leadEncoderSetTo == Some(AbsolutePosition(sensors.absolutePosition))
      // unit conversion of this tick's readings
      ensures currentAmps == sensors.amps && currentRotations == sensors.rotations
      ensures currentDegrees == sensors.rotations * DEGREES_PER_ROTATION
      ensures currentVelocity == sensors.rotationsPerMinute * DEGREES_PER_ROTATION
      ensures feedforward == old(feedforward) && kP == old(kP)
      ensures brakeEnabled == old(brakeEnabled) && idleMode == old(idleMode)
      // raw mode: the limiter may overwrite the stored output, which is what is sent
      ensures old(target).RawOutput? ==>
                var limit := SafetyLimit(old(target).output, currentDegrees);
                && target == RawOutput(limit.applied)
                && isLimited == limit.reason
                && lastSent == DutyCycle(limit.applied)
                && lastFeedforward == old(lastFeedforward)
      // closed-loop mode: the target is untouched and sent in motor rotations
      ensures old(target).ClosedLoop? ==>
                && target == old(target)
                && isLimited == ""
                && lastFeedforward == calculate(feedforward, DegreesToRadians(currentDegrees), target.velocity)
                && lastSent == PositionReference(target.degrees / DEGREES_PER_ROTATION, lastFeedforward)
    {
      if !initialized {
        leadEncoderSetTo := Some(AbsolutePosition(sensors.absolutePosition));
        followEncoderSetTo := Some(AbsolutePosition(sensors.absolutePosition));
        initialized := true;
      }

      currentAmps := sensors.amps;
      currentRotations := sensors.rotations;
      currentVelocity := sensors.rotationsPerMinute * DEGREES_PER_ROTATION;
      currentDegrees := currentRotations * DEGREES_PER_ROTATION;
      isLimited := "";

      match target {
        case RawOutput(output) =>
          if currentDegrees < MIN_ANGLE && output < 0.0 {
            target := RawOutput(0.0);
            isLimited := "MIN";
          } else if currentDegrees > MAX_ANGLE && output > 0.0 {
            target := RawOutput(0.0);
            isLimited := "MAX";
          }
          lastSent := DutyCycle(target.output);
        case ClosedLoop(degrees, velocity) =>
          lastFeedforward := calculate(feedforward, DegreesToRadians(currentDegrees), velocity);
          lastSent := PositionReference(degrees / DEGREES_PER_ROTATION, lastFeedforward);
      }
    }
  }
}
