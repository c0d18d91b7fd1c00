/**
 `transformations2.py`: camera roll and pitch carried to the drone's world
 frame by a fixed chain of 3x3 matrices applied to [roll, pitch, 0].
 */
module Transformations2 {
  import opened Linalg
  import opened Frames

  /**
   The vector `world_angles`: [roll, pitch, 0] through the mount rotation,
   the (identity) IMU-to-drone rotation, ENU-to-NED and OpenCV-to-world.
   In closed form it is [-Sin15 p, r, Cos15 p].
   */
  function WorldAngles(rollCam: real, pitchCam: real): (w: Vec3)
    ensures w == Vec3(-Sin15 * pitchCam, rollCam, Cos15 * pitchCam)
  {
    var cvcamAngles := Vec3(rollCam, pitchCam, 0.0);
    var imuAngles := Apply3(Rot(ImuTCvcam), cvcamAngles);
    var droneAngles := Apply3(Rot(DroneTImu), imuAngles);
    var nedAngles := Apply3(NedTEnu3, droneAngles);
    Apply3(WorldTCv3, nedAngles)
  }

  /**
   `transform_angles`: the first two entries of `world_angles`, as
   (roll_drone, pitch_drone); the third is dropped.
   */
  function TransformAngles(rollCam: real, pitchCam: real): (res: (real, real))
    ensures res == (-Sin15 * pitchCam, rollCam)
  {
    var w := WorldAngles(rollCam, pitchCam);
    (w.x, w.y)
  }

  /** The drone's roll comes from the camera's pitch only, the drone's pitch from the camera's roll only. */
  lemma AnglesCross(r1: real, p1: real, r2: real, p2: real)
    ensures TransformAngles(r1, p1).0 == TransformAngles(r2, p1).0
    ensures TransformAngles(r1, p1).1 == TransformAngles(r1, p2).1
    ensures TransformAngles(r1, p1).0 == TransformAngles(r2, p2).0 <==> p1 == p2
    ensures TransformAngles(r1, p1).1 == TransformAngles(r2, p2).1 <==> r1 == r2
  {
  }

  /** No information is lost: distinct camera angles give distinct drone angles. */
  lemma TransformAnglesInjective(r1: real, p1: real, r2: real, p2: real)
    ensures TransformAngles(r1, p1) == TransformAngles(r2, p2) <==> r1 == r2 && p1 == p2
  {
    AnglesCross(r1, p1, r2, p2);
  }

  /** Zero goes to zero and sums of inputs give sums of outputs. */
  lemma TransformAnglesAdditive(r1: real, p1: real, r2: real, p2: real)
    ensures TransformAngles(0.0, 0.0) == (0.0, 0.0)
    ensures TransformAngles(r1 + r2, p1 + p2)
         == (TransformAngles(r1, p1).0 + TransformAngles(r2, p2).0,
             TransformAngles(r1, p1).1 + TransformAngles(r2, p2).1)
  {
  }

  /** Scaling both inputs scales both outputs. */
  lemma TransformAnglesHomogeneous(r: real, p: real, s: real)
    ensures TransformAngles(s * r, s * p).0 == s * TransformAngles(r, p).0
    ensures TransformAngles(s * r, s * p).1 == s * TransformAngles(r, p).1
  {
    var scaled, base := TransformAngles(s * r, s * p), TransformAngles(r, p);
    ScaleCommutes(Sin15, s, p);
    assert scaled.0 == -Sin15 * (s * p);
    assert base.0 == -Sin15 * p;
    assert scaled.0 == s * base.0;
    assert scaled.1 == s * base.1;
  }

  /** -c (s p) == s (-c p), over plain reals. */
  lemma ScaleCommutes(c: real, s: real, p: real)
    ensures -c * (s * p) == s * (-c * p)
  {
  }

  /** The `drone_T_imu` step leaves every vector unchanged. */
  lemma DroneStepIsIdentity(v: Vec3)
    ensures Apply3(Rot(DroneTImu), v) == v
  {
    assert Rot(DroneTImu) == Identity3;
    Apply3Identity(v);
  }

  /** Both frame changes undo themselves. */
  lemma FrameChangesAreInvolutions()
    ensures Mul3(NedTEnu3, NedTEnu3) == Identity3
    ensures Mul3(WorldTCv3, WorldTCv3) == Identity3
  {
  }

  /** The script's example call `transform_angles(-3, -30)`. */
  lemma ExampleCall()
    ensures TransformAngles(-3.0, -30.0) == (7.7645715, -3.0)
  {
  }
}
