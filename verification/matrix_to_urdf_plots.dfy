/**
 `matrix_to_urdf_plots.py`: the same chain and `matrix_to_xyz_rpy` as the
 other scripts, plus the 4x4 ENU-to-NED and OpenCV-to-world frames it plots.
 Its `matrix_to_xyz_rpy` is a copy of the one in `matrix_to_urdf.py` and is
 modelled by `MatrixToUrdf.MatrixToXyzRpy`.
 */
module MatrixToUrdfPlots {
  import opened Linalg
  import opened Frames
  import opened MatrixToUrdf

  /** The origin the main block prints for `T = drone_T_nedcam`: position [0, 0, 0.3]. */
  lemma PrintedOrigin(eulerOf: Mat3 -> Vec3)
    ensures MatrixToXyzRpy(DroneTNedcam, eulerOf).xyz == Vec3(0.0, 0.0, 0.3)
    ensures MatrixToXyzRpy(DroneTNedcam, eulerOf).rpy == eulerOf(Rot(DroneTNedcam))
  {
    DroneTNedcamValue();
  }

  /** The 4x4 `ned_T_enu` has no translation and undoes itself. */
  lemma NedTEnu4Involution()
    ensures IsAffine(NedTEnu4) && Trans(NedTEnu4) == Zero3
    ensures Mul4(NedTEnu4, NedTEnu4) == Identity4
  {
  }

  /** The 4x4 `world_T_cv` has no translation and undoes itself. */
  lemma WorldTCv4Involution()
    ensures IsAffine(WorldTCv4) && Trans(WorldTCv4) == Zero3
    ensures Mul4(WorldTCv4, WorldTCv4) == Identity4
  {
  }

  /** Being involutions, both are their own closed-form inverse. */
  lemma FrameChangesSelfInverse()
    ensures InverseTransformation(NedTEnu4) == NedTEnu4
    ensures InverseTransformation(WorldTCv4) == WorldTCv4
  {
  }
}
