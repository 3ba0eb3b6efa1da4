/** The latest Limelight target sighting, a record that is overwritten in place. */
module Targets {

  class TargetInfo {
    var hasTarget: bool
    var horizontalOffset: real
    var verticalOffset: real
    var targetArea: real

    /** Java's default field values. */
    constructor ()
      ensures !hasTarget && horizontalOffset == 0.0 && verticalOffset == 0.0 && targetArea == 0.0
    {
      hasTarget := false;
      horizontalOffset, verticalOffset, targetArea := 0.0, 0.0, 0.0;
    }

    /** Overwrites all four fields: no target, zero offsets and area. Calling
        it again changes nothing. */
    method SetNoTarget()
      modifies this
      ensures !hasTarget && horizontalOffset == 0.0 && verticalOffset == 0.0 && targetArea == 0.0
      ensures (!old(hasTarget) && old(horizontalOffset) == 0.0 && old(verticalOffset) == 0.0
               && old(targetArea) == 0.0) ==> unchanged(this)
    {
      hasTarget := false;
      horizontalOffset := 0.0;
      verticalOffset := 0.0;
      targetArea := 0.0;
    }

    /** Overwrites all four fields with a sighting; nothing of the previous state survives. */
    method SetTarget(horizontalOffset: real, verticalOffset: real, targetArea: real)
      modifies this
      ensures hasTarget
      ensures this.horizontalOffset == horizontalOffset
      ensures this.verticalOffset == verticalOffset
      ensures this.targetArea == targetArea
    {
      this.hasTarget := true;
      this.horizontalOffset := horizontalOffset;
      this.verticalOffset := verticalOffset;
      this.targetArea := targetArea;
    }
  }
}
