/** The Limelight camera as seen through its NetworkTables entries: the
    selected pipeline, the target sighting, the pose array, and the robot
    orientation the robot publishes back to the camera. */
module Limelight {
  import opened Wrappers
  import opened Geometry
  import opened Pipelines
  import opened PoseEstimates
  import opened Targets

  /** The default of an array entry that has never been published. */
  const NO_DATA: seq<real> := []

  /** getPoseEstimate's guard: no estimate when the entry or its array is
      missing or the array has fewer than six values; otherwise the decoded one. */
  function EstimateFromEntry(data: Option<TimestampedDoubleArray>): (r: Option<PoseEstimate>)
    ensures r.None? <==> data.None? || data.value.value.None? || |data.value.value.value| < 6
    ensures r.Some? ==> data.Some? && data.value.value.Some? && |data.value.value.value| >= 6
                        && r.value == Decode(data.value)
  {
    if data.None? || data.value.value.None? || |data.value.value.value| < 6 then None
    else Some(Decode(data.value))
  }

  /** A five-element array gives no estimate. */
  lemma ShortArrayGivesNoEstimate(timestamp: int, values: seq<real>)
    requires |values| == 5
    ensures EstimateFromEntry(Some(TimestampedDoubleArray(timestamp, Some(values)))) == None
  {
  }

  class LimelightSubsystem {
    /** The "pipeline" entry (a double). */
    var currentPipeline: real
    /** The "tx", "ty", "ta" and "tv" entries. */
    var horizontalOffset: real
    var verticalOffset: real
    var targetArea: real
    var targetCount: real
    /** What getAtomic returns for the "botpose_orb_wpiblue" entry. */
    var megaTag: Option<TimestampedDoubleArray>
    /** The "robot_orientation_set" entry. */
    var fieldPose: seq<real>
    /** Whether a pose supplier was given (the supplier reference is non-null). */
    const hasPoseSupplier: bool

    /** Entries start at their defaults: pipeline -1, zero sighting, no data. */
    constructor (hasPoseSupplier: bool)
      ensures this.hasPoseSupplier == hasPoseSupplier
      ensures currentPipeline == -1.0
      ensures horizontalOffset == 0.0 && verticalOffset == 0.0 && targetArea == 0.0 && targetCount == 0.0
      ensures megaTag == Some(TimestampedDoubleArray(0, Some(NO_DATA))) && fieldPose == NO_DATA
    {
      this.hasPoseSupplier := hasPoseSupplier;
      currentPipeline := -1.0;
      targetArea, horizontalOffset, verticalOffset, targetCount := 0.0, 0.0, 0.0, 0.0;
      megaTag := Some(TimestampedDoubleArray(0, Some(NO_DATA)));
      fieldPose := NO_DATA;
    }

    method SetPipeline(desiredPipeline: LimelightPipeline)
      modifies this`currentPipeline
      ensures currentPipeline == desiredPipeline.Id() as real
      ensures GetCurrentPipeline() == desiredPipeline
    {
      currentPipeline := desiredPipeline.Id() as real;
      ForIdOfId(desiredPipeline);
    }

    /** The pipeline named by the entry, read back through an int cast that
        truncates toward zero: an entry holding a pipeline's id gives that
        pipeline, anything strictly between -1 and 1 reads as id 0, and an
        entry of magnitude 2 or more names no pipeline. */
    function GetCurrentPipeline(): (r: LimelightPipeline)
      reads this
      ensures forall p: LimelightPipeline :: currentPipeline == p.Id() as real ==> r == p
      ensures -1.0 < currentPipeline < 1.0 ==> r == DefaultAprilTag
      ensures currentPipeline <= -2.0 || 2.0 <= currentPipeline ==> r == Unknown
    {
      ForId(TruncateToInt(currentPipeline))
    }

    /** A sighting when the target count is positive, no target otherwise. */
    method UpdateTargetInfo(info: TargetInfo)
      modifies info
      ensures targetCount > 0.0 ==>
                && info.hasTarget
                && info.horizontalOffset == horizontalOffset
                && info.verticalOffset == verticalOffset
                && info.targetArea == targetArea
      ensures !(targetCount > 0.0) ==>
                && !info.hasTarget
                && info.horizontalOffset == 0.0 && info.verticalOffset == 0.0 && info.targetArea == 0.0
    {
      if targetCount > 0.0 {
        info.SetTarget(horizontalOffset, verticalOffset, targetArea);
      } else {
        info.SetNoTarget();
      }
    }

    function GetPoseEstimate(): Option<PoseEstimate>
      reads this
    {
      EstimateFromEntry(megaTag)
    }

    /** Publishes the robot's heading to the camera when a supplier exists and
        it supplies a pose (`supplied` is what it returned this tick). */
    method Periodic(supplied: Option<Pose2d>)
      modifies this`fieldPose
      ensures hasPoseSupplier && supplied.Some? ==>
                fieldPose == [supplied.value.headingDegrees, 0.0, 0.0, 0.0, 0.0, 0.0]
      ensures !(hasPoseSupplier && supplied.Some?) ==> fieldPose == old(fieldPose)
    {
      if hasPoseSupplier {
        if supplied.Some? {
          var pose := supplied.value;
          fieldPose := [pose.headingDegrees, 0.0, 0.0, 0.0, 0.0, 0.0];
        }
      }
    }
  }
}
