/** Planar pose and chassis speed values shared by the vision code and the drive. */
module Geometry {
  import opened MathUtil

  /** A field pose: translation in meters and heading, kept in degrees. */
  datatype Pose2d = Pose2d(x: real, y: real, headingDegrees: real) {
    function HeadingRadians(): real
    {
      DegreesToRadians(headingDegrees)
    }
  }

  /** new Pose2d(): the field origin, facing zero degrees. */
  const ORIGIN: Pose2d := Pose2d(0.0, 0.0, 0.0)

  /** Robot-relative chassis speeds. */
  datatype ChassisSpeeds = ChassisSpeeds(vx: real, vy: real, omega: real)

  /** SwerveDriveSubsystem.STOP, a ChassisSpeeds with every component zero. */
  const STOP: ChassisSpeeds := ChassisSpeeds(0.0, 0.0, 0.0)
}
