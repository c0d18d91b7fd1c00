/**
 `get_rpw.py`: the drone-to-NED-camera chain and `extract_xyz_rpy`, which
 reads a translation and two sets of angles out of a 4x4 transform.
 */
module GetRpw {
  import opened Linalg
  import opened Frames

  /**
   The floating-point routines `extract_xyz_rpy` calls: `math.atan2`,
   `math.sqrt` and `math.degrees`. Their values are not modelled; only
   which matrix entries reach them is.
   */
  datatype Trig = Trig(atan2: (real, real) -> real, sqrt: real -> real, degrees: real -> real)

  /** The six values `extract_xyz_rpy` returns, in the order it returns them. */
  datatype Extraction = Extraction(translationVector: Vec3,
                                   rollDeg: real, pitchDeg: real, yawDeg: real,
                                   urdfRpy: Vec3, urdfTranslation: Vec3)

  /** `a**2 + b**2` */
  function SumOfSquares(a: real, b: real): real {
    a * a + b * b
  }

  /**
   `extract_xyz_rpy`: yaw, pitch and roll from the rotation entries through
   `trig`, scipy's 'xyz' Euler angles through `eulerOf`, and the translation
   column, read twice.
   */
  function ExtractXyzRpy(t: Mat4, trig: Trig, eulerOf: Mat3 -> Vec3): (e: Extraction)
    ensures e.translationVector == Vec3(t.r0.w, t.r1.w, t.r2.w)
    ensures e.urdfTranslation == e.translationVector
    ensures e.yawDeg == trig.degrees(trig.atan2(t.r1.x, t.r0.x))
    ensures e.pitchDeg == trig.degrees(trig.atan2(-t.r2.x, trig.sqrt(SumOfSquares(t.r2.y, t.r2.z))))
    ensures e.rollDeg == trig.degrees(trig.atan2(t.r2.y, t.r2.z))
    ensures e.urdfRpy == eulerOf(Rot(t))
  {
    var rotation := Rot(t);
    var Mat3(Vec3(r11, _, _), Vec3(r21, _, _), Vec3(r31, r32, r33)) := rotation;
    var yaw := trig.atan2(r21, r11);
    var pitch := trig.atan2(-r31, trig.sqrt(SumOfSquares(r32, r33)));
    var roll := trig.atan2(r32, r33);
    Extraction(Trans(t), trig.degrees(roll), trig.degrees(pitch), trig.degrees(yaw),
               eulerOf(rotation), Trans(t))
  }

  /**
   A corollary of the contract of `ExtractXyzRpy`, kept as documentation:
   the angles depend only on the rotation block, the two translations only
   on the translation column.
   */
  lemma ExtractionSeparates(t: Mat4, u: Mat4, trig: Trig, eulerOf: Mat3 -> Vec3)
    ensures Rot(t) == Rot(u) ==>
      var a, b := ExtractXyzRpy(t, trig, eulerOf), ExtractXyzRpy(u, trig, eulerOf);
      a.rollDeg == b.rollDeg && a.pitchDeg == b.pitchDeg && a.yawDeg == b.yawDeg && a.urdfRpy == b.urdfRpy
    ensures Trans(t) == Trans(u) ==>
      var a, b := ExtractXyzRpy(t, trig, eulerOf), ExtractXyzRpy(u, trig, eulerOf);
      a.translationVector == b.translationVector && a.urdfTranslation == b.urdfTranslation
  {
  }

  /** Reading back a transform assembled from `r` and `t` gives `t` twice and the angles of `r`. */
  lemma ExtractionOfHomogeneous(r: Mat3, t: Vec3, trig: Trig, eulerOf: Mat3 -> Vec3)
    ensures ExtractXyzRpy(Homogeneous(r, t), trig, eulerOf).translationVector == t
    ensures ExtractXyzRpy(Homogeneous(r, t), trig, eulerOf).urdfTranslation == t
    ensures ExtractXyzRpy(Homogeneous(r, t), trig, eulerOf).urdfRpy == eulerOf(r)
  {
  }

  /** The script's main call: both translations it prints are [0, 0, 0.3]. */
  lemma MainExtraction(trig: Trig, eulerOf: Mat3 -> Vec3)
    ensures ExtractXyzRpy(DroneTNedcam, trig, eulerOf).translationVector == Vec3(0.0, 0.0, 0.3)
    ensures ExtractXyzRpy(DroneTNedcam, trig, eulerOf).urdfTranslation == Vec3(0.0, 0.0, 0.3)
  {
    DroneTNedcamValue();
  }
}
