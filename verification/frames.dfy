/**
 The named frame constants of the scripts and the one fixed chain they all
 compose. Every script repeats the same literals (camera to IMU, IMU to drone
 body, OpenCV camera to NED camera, ENU to NED, OpenCV to world); they are
 written once here.
 */
module Frames {
  import opened Linalg

  /** The two decimal literals of the camera mount: 15 degrees to eight places. */
  const Sin15: real := 0.25881905
  const Cos15: real := 0.96592583

  /** `imu_T_cvcam`: the OpenCV camera frame seen from the IMU, no offset. */
  const ImuTCvcam: Mat4 :=
    Mat4(Vec4(-1.0, 0.0, 0.0, 0.0),
         Vec4(0.0, -Sin15, Cos15, 0.0),
         Vec4(0.0, Cos15, Sin15, 0.0),
         UnitW)

  /** `drone_T_imu`: a pure translation by 0.3 along z. */
  const DroneTImu: Mat4 :=
    Mat4(Vec4(1.0, 0.0, 0.0, 0.0),
         Vec4(0.0, 1.0, 0.0, 0.0),
         Vec4(0.0, 0.0, 1.0, 0.3),
         UnitW)

  /** `cvcam_T_nedcam`: relabels the camera axes (x, y, z) -> (z, x, y). */
  const CvcamTNedcam: Mat4 :=
    Mat4(Vec4(0.0, 1.0, 0.0, 0.0),
         Vec4(0.0, 0.0, 1.0, 0.0),
         Vec4(1.0, 0.0, 0.0, 0.0),
         UnitW)

  /** The 3x3 `ned_T_enu` of the angle script: swap x and y, negate z. */
  const NedTEnu3: Mat3 :=
    Mat3(Vec3(0.0, 1.0, 0.0),
         Vec3(1.0, 0.0, 0.0),
         Vec3(0.0, 0.0, -1.0))

  /** The 3x3 `world_T_cv` of the angle script: negate y and z. */
  const WorldTCv3: Mat3 :=
    Mat3(Vec3(1.0, 0.0, 0.0),
         Vec3(0.0, -1.0, 0.0),
         Vec3(0.0, 0.0, -1.0))

  /** The 4x4 `ned_T_enu` of the plotting scripts. */
  const NedTEnu4: Mat4 :=
    Mat4(Vec4(0.0, 1.0, 0.0, 0.0),
         Vec4(1.0, 0.0, 0.0, 0.0),
         Vec4(0.0, 0.0, -1.0, 0.0),
         UnitW)

  /** The 4x4 `world_T_cv` of the plotting scripts. */
  const WorldTCv4: Mat4 :=
    Mat4(Vec4(1.0, 0.0, 0.0, 0.0),
         Vec4(0.0, -1.0, 0.0, 0.0),
         Vec4(0.0, 0.0, -1.0, 0.0),
         UnitW)

  /** The scripts' grouping of the chain: `(drone_T_imu @ imu_T_cvcam) @ cvcam_T_nedcam`. */
  function Chain(droneTImu: Mat4, imuTCvcam: Mat4, cvcamTNedcam: Mat4): Mat4 {
    Mul4(Mul4(droneTImu, imuTCvcam), cvcamTNedcam)
  }

  /** `drone_T_cvcam = drone_T_imu @ imu_T_cvcam` */
  const DroneTCvcam: Mat4 := Mul4(DroneTImu, ImuTCvcam)

  /** `drone_T_nedcam = drone_T_cvcam @ cvcam_T_nedcam` */
  const DroneTNedcam: Mat4 := Chain(DroneTImu, ImuTCvcam, CvcamTNedcam)

  /** Regrouping a chain of three products never changes the result. */
  lemma ChainRegroup(a: Mat4, b: Mat4, c: Mat4)
    ensures Chain(a, b, c) == Mul4(a, Mul4(b, c))
  {
    Mul4Assoc(a, b, c);
  }

  /**
   Left-multiplying by the pure translation `drone_T_imu` keeps the rotation
   block and shifts the translation by [0, 0, 0.3].
   */
  lemma DroneTImuShifts(m: Mat4)
    requires IsAffine(m)
    ensures IsAffine(Mul4(DroneTImu, m))
    ensures Rot(Mul4(DroneTImu, m)) == Rot(m)
    ensures Trans(Mul4(DroneTImu, m)) == Add3(Trans(m), Vec3(0.0, 0.0, 0.3))
  {
    BlockProduct(DroneTImu, m);
    AffineClosed(DroneTImu, m);
    Apply3Identity(Trans(m));
    assert Rot(DroneTImu) == Identity3;
    Mul3IdentityLeft(Rot(m));
  }

  /**
   Right-multiplying by `cvcam_T_nedcam` permutes columns: new column 0 is
   old column 2, new 1 is old 0, new 2 is old 1; the last column is kept.
   */
  lemma CvcamTNedcamOnRight(m: Mat4)
    ensures Mul4(m, CvcamTNedcam)
         == Mat4(Vec4(m.r0.z, m.r0.x, m.r0.y, m.r0.w),
                 Vec4(m.r1.z, m.r1.x, m.r1.y, m.r1.w),
                 Vec4(m.r2.z, m.r2.x, m.r2.y, m.r2.w),
                 Vec4(m.r3.z, m.r3.x, m.r3.y, m.r3.w))
  {
  }

  /**
   Left-multiplying by `cvcam_T_nedcam` permutes rows: new row 0 is old row
   1, new 1 is old 2, new 2 is old 0; the bottom row is kept.
   */
  lemma CvcamTNedcamOnLeft(m: Mat4)
    ensures Mul4(CvcamTNedcam, m) == Mat4(m.r1, m.r2, m.r0, m.r3)
  {
  }

  /** `drone_T_imu` has identity rotation, so the camera mount's rotation passes through unchanged. */
  lemma DroneTCvcamBlocks()
    ensures IsAffine(DroneTCvcam)
    ensures Rot(DroneTCvcam) == Rot(ImuTCvcam)
    ensures Trans(DroneTCvcam) == Vec3(0.0, 0.0, 0.3)
  {
    DroneTImuShifts(ImuTCvcam);
  }

  /** The value of the chain, entry by entry. */
  lemma DroneTNedcamValue()
    ensures DroneTNedcam
         == Mat4(Vec4(0.0, -1.0, 0.0, 0.0),
                 Vec4(Cos15, 0.0, -Sin15, 0.0),
                 Vec4(Sin15, 0.0, Cos15, 0.3),
                 UnitW)
  {
    DroneTCvcamBlocks();
    CvcamTNedcamOnRight(DroneTCvcam);
  }

  /** The 4x4 frame changes are the 3x3 ones embedded with no translation. */
  lemma EmbeddedFrameChanges()
    ensures NedTEnu4 == Homogeneous(NedTEnu3, Zero3)
    ensures WorldTCv4 == Homogeneous(WorldTCv3, Zero3)
  {
  }

  /**
   Over the reals the camera-mount block is NOT exactly orthonormal: its
   eight-digit sine and cosine do not square-sum to 1. Results that need
   R^T R = I therefore cannot be applied to it.
   */
  lemma MountBlockNotOrthonormal()
    ensures Mul3(Transpose3(Rot(ImuTCvcam)), Rot(ImuTCvcam)) != Identity3
    ensures Sin15 * Sin15 + Cos15 * Cos15 != 1.0
  {
    assert Mul3(Transpose3(Rot(ImuTCvcam)), Rot(ImuTCvcam)).r1.y == Sin15 * Sin15 + Cos15 * Cos15;
  }
}
