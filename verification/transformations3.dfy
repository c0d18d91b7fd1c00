/**
 `transformations3.py`: `transform_angles` places a camera rotation (from
 scipy, a parameter here) into a 4x4 frame, carries it through the fixed
 chain for plotting, and then reads a variable that is never assigned.
 */
module Transformations3 {
  import opened Linalg
  import opened Frames

  /** The frames `transform_angles` builds and plots. */
  datatype CameraFrames = CameraFrames(nedCam: Mat4, cvCam: Mat4, droneFrame: Mat4)

  /** What a call produces: the drone's roll and pitch, or Python's NameError. */
  datatype Outcome = Angles(rollDroneDeg: real, pitchDroneDeg: real) | NameError(name: string)

  /**
   `ned_cam`, `cv_cam` and `drone_frame` for the rotation `nedCamRot`
   returned by scipy's `from_euler`.
   */
  function FramesOf(nedCamRot: Mat3): (f: CameraFrames)
    ensures IsAffine(f.nedCam) && Rot(f.nedCam) == nedCamRot && Trans(f.nedCam) == Zero3
    ensures f.cvCam == Mat4(f.nedCam.r1, f.nedCam.r2, f.nedCam.r0, f.nedCam.r3)
    ensures IsAffine(f.cvCam) && Trans(f.cvCam) == Zero3
    ensures IsAffine(f.droneFrame)
    ensures Rot(f.droneFrame) == Mul3(Rot(DroneTNedcam), nedCamRot)
    ensures Trans(f.droneFrame) == Vec3(0.0, 0.0, 0.3)
  {
    var nedCam := WithRot(Identity4, nedCamRot);
    var cvCam := Mul4(CvcamTNedcam, nedCam);
    var droneFrame := Mul4(DroneTNedcam, nedCam);
    CvcamTNedcamOnLeft(nedCam);
    DroneTNedcamValue();
    BlockProduct(DroneTNedcam, nedCam);
    AffineClosed(DroneTNedcam, nedCam);
    CameraFrames(nedCam, cvCam, droneFrame)
  }

  /** With a zero rotation (the script's call with both angles 0) the drone frame is the chain itself. */
  lemma ZeroRotationFrame()
    ensures FramesOf(Identity3).droneFrame == DroneTNedcam
  {
    assert WithRot(Identity4, Identity3) == Identity4;
    Mul4Identity(DroneTNedcam);
  }

  /**
   `transform_angles` as written: line 88 reads `drone_world`, which is
   assigned only in a commented-out line, so every call raises NameError
   after the plotting.
   */
  function TransformAngles(rollCamDeg: real, pitchCamDeg: real,
                           fromEuler: Vec3 -> Mat3, asEuler: Mat3 -> Vec3): (o: Outcome)
    ensures !o.Angles? && o.name == "drone_world"
  {
    NameError("drone_world")
  }

  /** The script's own call, with both angles 0, does not return. */
  lemma ScriptCallFails(fromEuler: Vec3 -> Mat3, asEuler: Mat3 -> Vec3)
    ensures TransformAngles(0.0, 0.0, fromEuler, asEuler) == NameError("drone_world")
  {
  }

  /** The commented-out `drone_world = ned_T_enu.T @ drone_frame`. */
  function DroneWorld(nedCamRot: Mat3): (m: Mat4)
    ensures IsAffine(m)
    ensures Rot(m) == Mul3(NedTEnu3, Mul3(Rot(DroneTNedcam), nedCamRot))
    ensures Trans(m) == Vec3(0.0, 0.0, -0.3)
  {
    var droneFrame := FramesOf(nedCamRot).droneFrame;
    assert Transpose4(NedTEnu4) == Homogeneous(NedTEnu3, Zero3);
    BlockProduct(Transpose4(NedTEnu4), droneFrame);
    AffineClosed(Transpose4(NedTEnu4), droneFrame);
    Mul4(Transpose4(NedTEnu4), droneFrame)
  }

  /**
   For the script's zero-angle call (identity camera rotation), `drone_world`
   is the chain with its first two rows swapped and its third negated:
   translation [0, 0, -0.3].
   */
  lemma ZeroRotationDroneWorld()
    ensures DroneWorld(Identity3)
         == Mat4(Vec4(Cos15, 0.0, -Sin15, 0.0),
                 Vec4(0.0, -1.0, 0.0, 0.0),
                 Vec4(-Sin15, 0.0, -Cos15, -0.3),
                 UnitW)
  {
    DroneTNedcamValue();
    var m := DroneWorld(Identity3);
    BlocksDetermine(m, Mat4(Vec4(Cos15, 0.0, -Sin15, 0.0),
                            Vec4(0.0, -1.0, 0.0, 0.0),
                            Vec4(-Sin15, 0.0, -Cos15, -0.3),
                            UnitW));
  }

  /**
   `transform_angles` with line 72 restored: the Euler angles of
   `drone_world`'s rotation block, of which roll and pitch are returned.
   */
  function TransformAnglesIntended(rollCamDeg: real, pitchCamDeg: real,
                                   fromEuler: Vec3 -> Mat3, asEuler: Mat3 -> Vec3): (o: Outcome)
    ensures o.Angles?
    ensures var world := Rot(DroneWorld(fromEuler(Vec3(rollCamDeg, pitchCamDeg, 0.0))));
            o.rollDroneDeg == asEuler(world).x && o.pitchDroneDeg == asEuler(world).y
  {
    var droneWorld := DroneWorld(fromEuler(Vec3(rollCamDeg, pitchCamDeg, 0.0)));
    var euler := asEuler(Rot(droneWorld));
    Angles(euler.x, euler.y)
  }

  /**
   The corrected result in block form: the roll and pitch of
   `ned_T_enu R_chain R`, with `R` the camera rotation.
   */
  lemma IntendedBlockForm(r: real, p: real, fromEuler: Vec3 -> Mat3, asEuler: Mat3 -> Vec3)
    ensures var w := Mul3(NedTEnu3, Mul3(Rot(DroneTNedcam), fromEuler(Vec3(r, p, 0.0))));
            TransformAnglesIntended(r, p, fromEuler, asEuler) == Angles(asEuler(w).x, asEuler(w).y)
  {
  }
}
