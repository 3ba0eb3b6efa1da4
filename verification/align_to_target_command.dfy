/** Spins the robot in place until the Limelight's target is within a
    tolerance of the center of the image, or no target is seen. */
module AlignToTarget {
  import opened MathUtil
  import opened Geometry
  import opened Pipelines
  import opened Targets
  import opened Limelight
  import opened MockSwerve

  const DEFAULT_TARGETING_FACTOR: real := 5.0
  const DEFAULT_TARGETING_MAX_SPEED: real := 5.0
  const DEFAULT_TARGETING_TOLERANCE: real := 2.0

  class AlignToTargetCommand {
    const limelight: LimelightSubsystem
    const drive: MockSwerveDriveSubsystem
    const target: TargetInfo
    var speeds: ChassisSpeeds
    var speedFactor: real
    /** Tunable from the dashboard, but never applied to the command. */
    var maxSpeed: real
    var tolerance: real
    var done: bool

    constructor (limelight: LimelightSubsystem, drive: MockSwerveDriveSubsystem)
      ensures this.limelight == limelight && this.drive == drive && fresh(target)
      ensures speedFactor == DEFAULT_TARGETING_FACTOR && maxSpeed == DEFAULT_TARGETING_MAX_SPEED
      ensures tolerance == DEFAULT_TARGETING_TOLERANCE && !done
      ensures speeds == ChassisSpeeds(0.0, 0.0, 0.0) && !target.hasTarget
    {
      this.limelight := limelight;
      this.drive := drive;
      speedFactor := DEFAULT_TARGETING_FACTOR;
      maxSpeed := DEFAULT_TARGETING_MAX_SPEED;
      tolerance := DEFAULT_TARGETING_TOLERANCE;
      target := new TargetInfo();
      speeds := ChassisSpeeds(0.0, 0.0, 0.0);
      done := false;
    }

    /** Selects the chosen pipeline and starts from no target, no spin, not done. */
    method Initialize(selected: LimelightPipeline)
      modifies this`speeds, this`done, target, limelight`currentPipeline
      ensures limelight.GetCurrentPipeline() == selected
      ensures !target.hasTarget && target.horizontalOffset == 0.0
      ensures target.verticalOffset == 0.0 && target.targetArea == 0.0
      ensures speeds == old(speeds).(omega := 0.0) && !done
    {
      limelight.SetPipeline(selected);
      target.SetNoTarget();
      speeds := speeds.(omega := 0.0);
      done := false;
    }

    /** One tick: refresh the sighting; while the target is off center by more
        than the tolerance, spin proportionally to the offset (one drive
        request, no speed cap); otherwise declare the alignment done. */
    method Execute()
      modifies this`speeds, this`done, target, drive`driveRequests
      ensures target.hasTarget == (limelight.targetCount > 0.0)
      ensures target.hasTarget ==>
                && target.horizontalOffset == limelight.horizontalOffset
                && target.verticalOffset == limelight.verticalOffset
                && target.targetArea == limelight.targetArea
      ensures !target.hasTarget ==>
                target.horizontalOffset == 0.0 && target.verticalOffset == 0.0 && target.targetArea == 0.0
      ensures target.hasTarget && Abs(target.horizontalOffset) > tolerance ==>
                && speeds == old(speeds).(omega := speedFactor * target.horizontalOffset)
                && drive.driveRequests == old(drive.driveRequests) + [speeds]
                && done == old(done)
      ensures !(target.hasTarget && Abs(target.horizontalOffset) > tolerance) ==>
                && done
                && speeds == old(speeds)
                && drive.driveRequests == old(drive.driveRequests)
      ensures old(done) ==> done
    {
      limelight.UpdateTargetInfo(target);
      if target.hasTarget && Abs(target.horizontalOffset) > tolerance {
        speeds := speeds.(omega := speedFactor * target.horizontalOffset);
        drive.DriveRobotRelative(speeds);
      } else {
        done := true;
      }
    }

    /** Stops the spin, forgets the sighting and marks the alignment done. */
    method End(interrupted: bool)
      modifies this`speeds, this`done, target
      ensures speeds == old(speeds).(omega := 0.0) && done
      ensures !target.hasTarget && target.horizontalOffset == 0.0
      ensures target.verticalOffset == 0.0 && target.targetArea == 0.0
    {
      speeds := speeds.(omega := 0.0);
      target.SetNoTarget();
      done := true;
    }
  }
}
