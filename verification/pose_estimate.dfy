/** Decoding of the Limelight's flat "botpose" array into a pose estimate. */
module PoseEstimates {
  import opened Wrappers
  import opened Geometry

  /** A NetworkTables double array with the time (microseconds) it arrived;
      the array itself may be missing (null). */
  datatype TimestampedDoubleArray = TimestampedDoubleArray(timestamp: int, value: Option<seq<real>>)

  /** A decoded estimate. Every field is fixed once it is built. */
  datatype PoseEstimate = PoseEstimate(
    pose: Pose2d,
    timestampSeconds: real,
    latency: real,
    tagCount: int,
    tagSpan: real,
    averageTagDistance: real,
    averageTagArea: real)

  /** The entry at `idx`, or 0.0 when the array is too short: never out of bounds. */
  function GetDouble(values: seq<real>, idx: nat): (r: real)
    ensures idx < |values| ==> r == values[idx]
    ensures |values| <= idx ==> r == 0.0
  {
    if |values| > idx then values[idx] else 0.0
  }

  /** Position from indices 0 and 1, heading in degrees from index 5. */
  function GetPose(values: seq<real>): (p: Pose2d)
    requires |values| >= 6
    ensures p.x == values[0] && p.y == values[1] && p.headingDegrees == values[5]
  {
    Pose2d(values[0], values[1], values[5])
  }

  /** Java's (int) cast of a double: truncation toward zero. */
  function TruncateToInt(x: real): (n: int)
    ensures 0.0 <= x ==> n as real <= x < n as real + 1.0
    ensures x < 0.0 ==> n as real - 1.0 < x <= n as real
  {
    if x >= 0.0 then x.Floor else -((-x).Floor)
  }

  /** new PoseEstimate(entry): the fixed layout [x, y, z, roll, pitch, yaw,
      latency ms, tag count, tag span, average tag distance, average tag area],
      with the arrival time corrected by the pipeline latency. */
  function Decode(entry: TimestampedDoubleArray): (e: PoseEstimate)
    requires entry.value.Some? && |entry.value.value| >= 6
    ensures var a := entry.value.value;
      && e.pose == Pose2d(a[0], a[1], a[5])
      && e.latency == (if |a| > 6 then a[6] else 0.0)
      && e.timestampSeconds == entry.timestamp as real / 1000000.0 - e.latency / 1000.0
      && e.tagCount == TruncateToInt(if |a| > 7 then a[7] else 0.0)
      && e.tagSpan == (if |a| > 8 then a[8] else 0.0)
      && e.averageTagDistance == (if |a| > 9 then a[9] else 0.0)
      && e.averageTagArea == (if |a| > 10 then a[10] else 0.0)
  {
    var values := entry.value.value;
    var latency := GetDouble(values, 6);
    PoseEstimate(
      GetPose(values),
      entry.timestamp as real / 1000000.0 - latency / 1000.0,
      latency,
      TruncateToInt(GetDouble(values, 7)),
      GetDouble(values, 8),
      GetDouble(values, 9),
      GetDouble(values, 10))
  }

  /** The values a camera publishes for a given estimate. */
  function Encode(pose: Pose2d, latency: real, tagCount: int, tagSpan: real, distance: real, area: real): (a: seq<real>)
    ensures |a| == 11
  {
    [pose.x, pose.y, 0.0, 0.0, 0.0, pose.headingDegrees, latency, tagCount as real, tagSpan, distance, area]
  }

  /** Decoding what was encoded gives back every field, with the arrival time
      corrected by the latency. */
  lemma DecodeEncode(timestamp: int, pose: Pose2d, latency: real, tagCount: int, tagSpan: real, distance: real, area: real)
    ensures var a := Encode(pose, latency, tagCount, tagSpan, distance, area);
      Decode(TimestampedDoubleArray(timestamp, Some(a)))
        == PoseEstimate(pose, timestamp as real / 1000000.0 - latency / 1000.0, latency, tagCount, tagSpan, distance, area)
  {
    assert (tagCount as real).Floor == tagCount;
  }

  /** Entries after index 10 are never read. */
  lemma DecodeIgnoresTrailingEntries(timestamp: int, values: seq<real>, extra: seq<real>)
    requires |values| >= 11
    ensures Decode(TimestampedDoubleArray(timestamp, Some(values + extra)))
         == Decode(TimestampedDoubleArray(timestamp, Some(values)))
  {
  }

  /** An array that arrived at 5 000 000 microseconds with 20 ms latency
      decodes to an observation at 4.98 s. */
  lemma DecodeExample()
    ensures var e := Decode(TimestampedDoubleArray(5000000,
                              Some([1.0, 2.0, 0.0, 0.0, 0.0, 30.0, 20.0, 4.0, 1.5, 2.0, 10.0])));
      && e.pose == Pose2d(1.0, 2.0, 30.0)
      && e.latency == 20.0
      && e.timestampSeconds == 4.98
      && e.tagCount == 4
      && e.tagSpan == 1.5 && e.averageTagDistance == 2.0 && e.averageTagArea == 10.0
  {
    assert (4.0).Floor == 4;
  }

  /** Only the first six entries are mandatory; the optional ones default to 0. */
  lemma DecodeShortestArray(timestamp: int, values: seq<real>)
    requires |values| == 6
    ensures var e := Decode(TimestampedDoubleArray(timestamp, Some(values)));
      && e.latency == 0.0 && e.tagCount == 0 && e.tagSpan == 0.0
      && e.averageTagDistance == 0.0 && e.averageTagArea == 0.0
      && e.timestampSeconds == timestamp as real / 1000000.0
  {
  }
}
