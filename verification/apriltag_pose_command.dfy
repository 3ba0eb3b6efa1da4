/** Forwards each valid Limelight pose estimate to the drivetrain and
    reports whether this tick had one. */
module AprilTagPoseCommand {
  import opened Wrappers
  import opened Pipelines
  import opened PoseEstimates
  import opened Limelight
  import opened MockSwerve

  class AprilTagPoseEstimateCommand {
    const limelight: LimelightSubsystem
    const drive: MockSwerveDriveSubsystem
    var hasPose: bool
    var log: bool

    constructor (limelight: LimelightSubsystem, drive: MockSwerveDriveSubsystem)
      ensures this.limelight == limelight && this.drive == drive && !hasPose && !log
    {
      this.limelight := limelight;
      this.drive := drive;
      hasPose := false;
      log := false;
    }

    method Initialize(selected: LimelightPipeline)
      modifies this`hasPose, limelight`currentPipeline
      ensures !hasPose && limelight.GetCurrentPipeline() == selected
    {
      hasPose := false;
      limelight.SetPipeline(selected);
    }

    /** An absent estimate clears the flag and reaches no one; a present one
        sets the flag and is handed to the drivetrain exactly once. */
    method Execute()
      modifies this`hasPose, drive`lastPose, drive`accepted
      ensures hasPose == limelight.GetPoseEstimate().Some?
      ensures limelight.GetPoseEstimate().None? ==>
                drive.accepted == old(drive.accepted) && drive.lastPose == old(drive.lastPose)
      ensures limelight.GetPoseEstimate().Some? ==>
                && drive.accepted == old(drive.accepted) + [limelight.GetPoseEstimate().value]
                && drive.GetPose() == limelight.GetPoseEstimate().value.pose
    {
      var pose := limelight.GetPoseEstimate();
      if pose.None? {
        hasPose := false;
        return;
      }

      hasPose := true;
      drive.AcceptPoseEstimate(pose.value);
    }

    method End(interrupted: bool)
      modifies this`hasPose
      ensures !hasPose
    {
      hasPose := false;
    }
  }
}
