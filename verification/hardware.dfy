/** What the controllers write to their motor controllers, recorded as values
    instead of being sent over the CAN bus. */
module Hardware {

  /** What a motor does when it is given zero output. */
  datatype IdleMode = Brake | Coast

  /** The last command a motor controller received: nothing yet, a raw duty
      cycle in [-1, 1], a position reference in motor rotations, or a velocity
      reference in rotations per minute, each closed-loop one with the
      arbitrary feedforward term the controller adds. */
  datatype MotorCommand =
    | NoCommand
    | DutyCycle(output: real)
    | PositionReference(rotations: real, arbFeedforward: real)
    | VelocityReference(rpm: real, arbFeedforward: real)

  function IdleModeFor(brake: bool): IdleMode
  {
    if brake then Brake else Coast
  }
}
