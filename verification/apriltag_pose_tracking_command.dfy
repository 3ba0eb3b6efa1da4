/** Forwards each valid Limelight pose estimate to the drivetrain and keeps
    the latest one (or its absence). */
module AprilTagPoseTracking {
  import opened Wrappers
  import opened Pipelines
  import opened PoseEstimates
  import opened Limelight
  import opened MockSwerve

  class AprilTagPoseEstimateCommand {
    const limelight: LimelightSubsystem
    const drive: MockSwerveDriveSubsystem
    var lastPose: Option<PoseEstimate>
    var log: bool

    constructor (limelight: LimelightSubsystem, drive: MockSwerveDriveSubsystem)
      ensures this.limelight == limelight && this.drive == drive && lastPose == None && !log
    {
      this.limelight := limelight;
      this.drive := drive;
      lastPose := None;
      log := false;
    }

    /** The dashboard's "HasPose?": an estimate is held. */
    function HasPose(): bool
      reads this
    {
      lastPose.Some?
    }

    method Initialize(selected: LimelightPipeline)
      modifies this`lastPose, limelight`currentPipeline
      ensures lastPose == None && !HasPose()
      ensures limelight.GetCurrentPipeline() == selected
    {
      lastPose := None;
      limelight.SetPipeline(selected);
    }

    /** The latest estimate replaces the stored one, absence included; a
        present one is handed to the drivetrain exactly once. */
    method Execute()
      modifies this`lastPose, drive`lastPose, drive`accepted
      ensures lastPose == limelight.GetPoseEstimate()
      ensures HasPose() == limelight.GetPoseEstimate().Some?
      ensures lastPose.None? ==>
                drive.accepted == old(drive.accepted) && drive.lastPose == old(drive.lastPose)
      ensures lastPose.Some? ==>
                && drive.accepted == old(drive.accepted) + [lastPose.value]
                && drive.GetPose() == lastPose.value.pose
    {
      lastPose := limelight.GetPoseEstimate();
      if lastPose.None? {
        return;
      }

      drive.AcceptPoseEstimate(lastPose.value);
    }

    method End(interrupted: bool)
      modifies this`lastPose
      ensures lastPose == None && !HasPose()
    {
      lastPose := None;
    }
  }
}
