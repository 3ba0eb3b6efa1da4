/** The stand-in drivetrain: it keeps the last pose it was told and ignores
    drive requests. It is the sink for vision pose estimates. */
module MockSwerve {
  import opened Geometry
  import opened PoseEstimates

  const PERIOD_SECS: real := 0.02

  class MockSwerveDriveSubsystem {
    var lastPose: Pose2d
    var lastSpeed: ChassisSpeeds
    /** Every estimate passed to AcceptPoseEstimate, oldest first. */
    ghost var accepted: seq<PoseEstimate>
    /** Every speed passed to DriveRobotRelative, oldest first. */
    ghost var driveRequests: seq<ChassisSpeeds>

    /** The speed is never anything but STOP. */
    ghost predicate Valid()
      reads this
    {
      lastSpeed == STOP
    }

    constructor ()
      ensures Valid() && lastPose == ORIGIN
      ensures accepted == [] && driveRequests == []
    {
      lastPose := ORIGIN;
      lastSpeed := STOP;
      accepted := [];
      driveRequests := [];
    }

    function GetPose(): Pose2d
      reads this
    {
      lastPose
    }

    method AcceptPoseEstimate(pose: PoseEstimate)
      modifies this`lastPose, this`accepted
      ensures GetPose() == pose.pose
      ensures accepted == old(accepted) + [pose]
    {
      lastPose := pose.pose;
      accepted := accepted + [pose];
    }

    /** Records the request and changes no state. */
    method DriveRobotRelative(speeds: ChassisSpeeds)
      modifies this`driveRequests
      ensures driveRequests == old(driveRequests) + [speeds]
    {
      driveRequests := driveRequests + [speeds];
    }

    /** Integrates the last speed over one period unless it is STOP; the new
        heading is built from a radians sum as if it were degrees, as written. */
    method Periodic()
      modifies this`lastPose
      ensures lastSpeed == STOP ==> lastPose == old(lastPose)
      ensures lastSpeed != STOP ==>
                lastPose == Pose2d(old(lastPose).x + lastSpeed.vx * PERIOD_SECS,
                                   old(lastPose).y + lastSpeed.vy * PERIOD_SECS,
                                   old(lastPose).HeadingRadians() + lastSpeed.omega * PERIOD_SECS)
      ensures Valid() ==> lastPose == old(lastPose)
    {
      if lastSpeed != STOP {
        var x := lastPose.x + lastSpeed.vx * PERIOD_SECS;
        var y := lastPose.y + lastSpeed.vy * PERIOD_SECS;
        var r := lastPose.HeadingRadians() + lastSpeed.omega * PERIOD_SECS;
        lastPose := Pose2d(x, y, r);
      }
    }
  }
}
