/**
  The body-pose vocabulary the classifiers consume: Vision's joint names, the
  normalised 2D points it reports, and the per-frame joint sample.
 */
module Pose {
  import opened Wrappers

  /** A normalised image point (origin top-left). Coordinates are exact reals here. */
  datatype Point = Point(x: real, y: real)

  const Origin := Point(0.0, 0.0)

  /** VNHumanBodyPoseObservation.JointName. */
  datatype JointName =
    | Nose | LeftEye | RightEye | LeftEar | RightEar | Neck | Root
    | LeftShoulder | RightShoulder | LeftElbow | RightElbow | LeftWrist | RightWrist
    | LeftHip | RightHip | LeftKnee | RightKnee | LeftAnkle | RightAnkle

  /** One frame: the joints the detector reported with enough confidence. */
  type Joints = map<JointName, Point>

  /** Three joints that define an angle at the middle one (hip-knee-ankle, shoulder-elbow-wrist). */
  datatype Limb = Limb(outer: JointName, vertex: JointName, inner: JointName)

  datatype Triple = Triple(p1: Point, p2: Point, p3: Point)

  /**
    The trigonometric part of `calculateAngle`: the difference of the two `atan2`
    bearings, in degrees. It is floating-point trigonometry and is left abstract;
    `atan2` lies in (-180, 180], so the difference lies in (-360, 360).
   */
  type Bearing = (Point, Point, Point) -> real

  predicate HasLimb(j: Joints, l: Limb) {
    l.outer in j && l.vertex in j && l.inner in j
  }

  /**
    The side fallback of `process`: the right limb when all three of its joints
    are present, otherwise the left limb when all three of its are, otherwise
    nothing (the frame is dropped).
   */
  function PreferRight(j: Joints, right: Limb, left: Limb): (r: Option<Triple>)
    ensures HasLimb(j, right) ==> r == Some(Triple(j[right.outer], j[right.vertex], j[right.inner]))
    ensures !HasLimb(j, right) && HasLimb(j, left) ==> r == Some(Triple(j[left.outer], j[left.vertex], j[left.inner]))
    ensures r.None? <==> !HasLimb(j, right) && !HasLimb(j, left)
  {
    if HasLimb(j, right) then Some(Triple(j[right.outer], j[right.vertex], j[right.inner]))
    else if HasLimb(j, left) then Some(Triple(j[left.outer], j[left.vertex], j[left.inner]))
    else None
  }
}
