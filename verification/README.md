# Rigid transforms of a drone camera mount, in exact arithmetic

The Python scripts modelled here compute where a camera sits on a drone, as
4x4 homogeneous transforms, and turn those transforms into URDF origins. A
URDF origin is a position `xyz` plus roll-pitch-yaw angles. The scripts:

- invert a rigid transform in closed form (`inverse_transformation`);
- read the translation column out of a transform (`matrix_to_xyz_rpy`,
  `extract_xyz_rpy`);
- compose the fixed chain `drone_T_nedcam = (drone_T_imu @ imu_T_cvcam) @
  cvcam_T_nedcam`;
- carry camera roll and pitch to the drone by a chain of constant 3x3
  matrices (`transform_angles` in `transformations2.py`);
- place a camera rotation into that chain for plotting (`transform_angles`
  in `transformations3.py`).

All of this uses only `+`, `-` and `*`, so it is modelled over Dafny's `real`.
The constant matrices contain only 0, ±1, 0.3, 0.5 and the two eight-digit
literals 0.25881905 and 0.96592583. Products of these constants with one
another (the `drone_T_nedcam` chain, the frame changes, `ned_T_enu.T @
drone_frame` for a constant frame) multiply every literal by 0 or ±1, so for
them the real results are the floating-point results. Products with caller
data (camera angles, scipy's rotation entries) are rounded in floating point
and are modelled as their exact real values.

Modules, one per script, plus two shared ones:

- `Linalg` (`linalg.dfy`) holds the shared algebra:
  - `Vec3`, `Vec4`, `Mat3` and `Mat4` datatypes, stored row by row;
  - products, transposes and `np.eye(4)`;
  - the block view of a 4x4 matrix: rotation block `m[:3,:3]`, translation `m[:3,3]`, bottom row;
  - associativity of the 4x4 product, proved from linearity of a row times a matrix;
  - the block form of a product.
- `Frames` (`frames.dfy`) holds the frame constants that every script repeats, written once:
  - `imu_T_cvcam`, `drone_T_imu` and `cvcam_T_nedcam`;
  - the 3x3 and 4x4 `ned_T_enu` and `world_T_cv`;
  - the chain `drone_T_nedcam`.

  `get_rpw.py`, `transformations3.py` and `matrix_to_urdf_plots.py` build this chain from identical literals with identical grouping, so one definition serves all three.
- `MatrixToUrdf`, `GetRpw`, `Transformations2`, `Transformations3` and
  `MatrixToUrdfPlots` follow the scripts of the same names.

Parameters stand in for code whose values are not modelled:

- scipy's `from_matrix(...).as_euler('xyz')` is `eulerOf` / `asEuler`, of type `Mat3 -> Vec3`;
- scipy's `from_euler` is `fromEuler`, of type `Vec3 -> Mat3`;
- `math.atan2`, `math.sqrt` and `math.degrees` are the fields of `GetRpw.Trig`.

The model fixes which matrix entries reach these routines, not what the routines compute.

## Model

| member | source | states |
|---|---|---|
| `Linalg.WithRot` | matrix_to_urdf.py:69 | assigning `m[:3,:3] = r` sets the rotation block to `r` and leaves the translation and the bottom row as they were |
| `Linalg.WithTrans` | matrix_to_urdf.py:70 | assigning `m[:3,3] = t` sets the translation to `t` and leaves the rotation block and the bottom row as they were |
| `Linalg.Homogeneous` | matrix_to_urdf.py:68-70 | `np.eye(4)` with a rotation block and a translation assigned has exactly those blocks and bottom row [0,0,0,1] |
| `Linalg.HomogeneousOfBlocks` | matrix_to_urdf.py:68-70 | every matrix with bottom row [0,0,0,1] is rebuilt exactly from its rotation block and translation |
| `Linalg.BlocksDetermine` | matrix_to_urdf.py:68-70 | two matrices with bottom row [0,0,0,1] and equal blocks are equal |
| `Linalg.Apply3Mul` | transformations2.py:51-60 | applying a matrix product to a vector equals applying the factors one after another, so the chain of `np.dot` calls is one product |
| `Linalg.Transpose3Involutive` | matrix_to_urdf.py:62 | transposing twice gives back the matrix |
| `Linalg.Transpose3Mul` | matrix_to_urdf.py:62 | the transpose of a product is the product of the transposes in the opposite order, `(a @ b).T == b.T @ a.T` |
| `Linalg.Mul4Assoc` | get_rpw.py:25-26 | the 4x4 product is associative for all matrices |
| `Linalg.Mul4Identity` | matrix_to_urdf.py:68 | `np.eye(4)` is a two-sided unit of the 4x4 product |
| `Linalg.AffineClosed` | get_rpw.py:25-26 | a product of two matrices with bottom row [0,0,0,1] has bottom row [0,0,0,1] |
| `Linalg.BlockProduct` | transformations3.py:65-70 | if the right factor has bottom row [0,0,0,1], the product's rotation block is `Ra Rb` and its translation is `Ra tb + ta` |
| `Frames.ChainRegroup` | get_rpw.py:25-26 | `drone_T_imu @ (imu_T_cvcam @ cvcam_T_nedcam)` equals the scripts' grouping, for any three matrices |
| `Frames.DroneTImuShifts` | matrix_to_urdf_plots.py:50-55 | left-multiplying a matrix with bottom row [0,0,0,1] by `drone_T_imu` keeps its rotation block and bottom row and adds [0,0,0.3] to its translation |
| `Frames.CvcamTNedcamOnRight` | get_rpw.py:18-26 | right-multiplying any matrix by `cvcam_T_nedcam` moves column 2 to 0, 0 to 1 and 1 to 2, and keeps the translation column |
| `Frames.CvcamTNedcamOnLeft` | transformations3.py:65 | left-multiplying any matrix by `cvcam_T_nedcam` moves row 1 to 0, 2 to 1 and 0 to 2, and keeps the bottom row |
| `Frames.DroneTCvcamBlocks` | get_rpw.py:6-25 | `drone_T_cvcam` has the rotation block of `imu_T_cvcam`, translation [0,0,0.3] and bottom row [0,0,0,1] |
| `Frames.DroneTNedcamValue` | get_rpw.py:25-26 | `drone_T_nedcam` is exactly [[0,-1,0,0],[0.96592583,0,-0.25881905,0],[0.25881905,0,0.96592583,0.3],[0,0,0,1]] |
| `Frames.EmbeddedFrameChanges` | transformations3.py:16-27 | the 4x4 `ned_T_enu` and `world_T_cv` are the 3x3 ones placed in `np.eye(4)` with zero translation |
| `Frames.MountBlockNotOrthonormal` | get_rpw.py:6-9 | over the reals the mount's rotation block does not satisfy `R^T R = I`, because 0.25881905² + 0.96592583² ≠ 1 |
| `MatrixToUrdf.MatrixToXyzRpy` | matrix_to_urdf.py:6-17 | `xyz` is exactly entries 0..2 of column 3, and `rpy` is the Euler routine applied to the rotation block |
| `MatrixToUrdf.XyzRpyOfHomogeneous` | matrix_to_urdf.py:10-15 | reading a URDF origin back from a transform assembled from `r` and `t` gives `t` and the angles of `r` |
| `MatrixToUrdf.XyzRpySeparate` | matrix_to_urdf.py:10-15 | the position depends only on the translation column and the angles only on the rotation block |
| `MatrixToUrdf.InverseTransformation` | matrix_to_urdf.py:54-72 | the inverse always has bottom row [0,0,0,1] and rotation block `R^T`; its translation, computed as `(-R^T) t`, equals `-(R^T t)` |
| `MatrixToUrdf.InverseIgnoresBottomRow` | matrix_to_urdf.py:58-59 | inputs with equal blocks have equal inverses, whatever their bottom rows |
| `MatrixToUrdf.InverseRotationRoundTrip` | matrix_to_urdf.py:62-69 | inverting twice restores the rotation block of any input, with no precondition |
| `MatrixToUrdf.LeftInverseIff` | matrix_to_urdf.py:54-72 | for bottom row [0,0,0,1], `inverse(T) @ T = I` holds exactly when `R^T R = I` |
| `MatrixToUrdf.RightInverseIff` | matrix_to_urdf.py:54-72 | for bottom row [0,0,0,1], `T @ inverse(T) = I` holds exactly when `R R^T = I` |
| `MatrixToUrdf.InverseInvolutive` | matrix_to_urdf.py:54-72 | with `R R^T = I` and bottom row [0,0,0,1], inverting twice returns the input exactly |
| `MatrixToUrdf.RigidClosed` | get_rpw.py:25-26 | composing two rigid transforms (bottom row [0,0,0,1] and `R R^T = I`) gives a rigid transform: the product keeps the bottom row and its rotation block again satisfies `R R^T = I` |
| `MatrixToUrdf.InverseNeedsBottomRow` | matrix_to_urdf.py:68-70 | with bottom row [0,0,0,2] and an orthonormal block, neither product with the inverse is the identity |
| `MatrixToUrdf.PureTranslationInverse` | matrix_to_urdf.py:62-70 | the inverse of a pure translation by `t` is the pure translation by `-t` |
| `MatrixToUrdf.TargetTSourceExample` | matrix_to_urdf.py:83-98 | `target_T_source` has position (0.5, 0.5, 0.5); its inverse is the given matrix and is two-sided |
| `GetRpw.ExtractXyzRpy` | get_rpw.py:28-67 | `translation_vector` is entries 0..2 of column 3 and `urdf_translation` equals it; yaw is `degrees(atan2(r21, r11))`, pitch `degrees(atan2(-r31, sqrt(r32² + r33²)))`, roll `degrees(atan2(r32, r33))`; `urdf_rpy` is the Euler routine applied to the rotation block |
| `GetRpw.ExtractionOfHomogeneous` | get_rpw.py:29-57 | for a transform assembled from `r` and `t`, both returned translations are `t` and `urdf_rpy` is the angles of `r` |
| `GetRpw.ExtractionSeparates` | get_rpw.py:29-57 | the three trigonometric angles and `urdf_rpy` depend only on the rotation block, and both translations only on column 3 |
| `GetRpw.MainExtraction` | get_rpw.py:71-73 | for `drone_T_nedcam` both translations returned are [0,0,0.3] |
| `Transformations2.WorldAngles` | transformations2.py:48-60 | `world_angles` for camera angles (r, p) is [-0.25881905 p, r, 0.96592583 p] |
| `Transformations2.TransformAngles` | transformations2.py:32-66 | `transform_angles(r, p)` returns exactly (-0.25881905 p, r) |
| `Transformations2.AnglesCross` | transformations2.py:48-64 | the drone's roll ignores the camera's roll and the drone's pitch ignores the camera's pitch; each output separates exactly the input it does depend on |
| `Transformations2.TransformAnglesInjective` | transformations2.py:48-66 | two calls give the same drone angles exactly when the camera angles are the same |
| `Transformations2.TransformAnglesAdditive` | transformations2.py:48-60 | (0, 0) maps to (0, 0), and a sum of inputs maps to the sum of outputs |
| `Transformations2.TransformAnglesHomogeneous` | transformations2.py:48-60 | scaling both inputs by `s` scales both outputs by `s` |
| `Transformations2.DroneStepIsIdentity` | transformations2.py:54 | the `drone_T_imu` rotation step leaves every vector unchanged |
| `Transformations2.FrameChangesAreInvolutions` | transformations2.py:21-30 | `ned_T_enu @ ned_T_enu = I` and `world_T_cv @ world_T_cv = I` |
| `Transformations2.ExampleCall` | transformations2.py:72 | `transform_angles(-3, -30)` is (7.7645715, -3) |
| `Transformations3.FramesOf` | transformations3.py:60-70 | `ned_cam` carries the given rotation with zero translation; `cv_cam` is `ned_cam` with rows permuted and zero translation; `drone_frame` has rotation block `R_chain R` and translation [0,0,0.3] for every rotation |
| `Transformations3.ZeroRotationFrame` | transformations3.py:93-95 | with the identity rotation, `drone_frame` equals `drone_T_nedcam` |
| `Transformations3.TransformAngles` | transformations3.py:53-91 | as written, no call returns angles: every call ends in a NameError on `drone_world` |
| `Transformations3.ScriptCallFails` | transformations3.py:93-95 | the script's own call with both angles 0 raises that NameError |
| `Transformations3.DroneWorld` | transformations3.py:72 | `ned_T_enu.T @ drone_frame` has bottom row [0,0,0,1], rotation block `ned_T_enu R_chain R` and translation [0,0,-0.3] |
| `Transformations3.ZeroRotationDroneWorld` | transformations3.py:70-95 | for the script's zero-angle call, `drone_world` is `drone_T_nedcam` with rows 0 and 1 swapped and row 2 negated, so its translation is [0,0,-0.3] |
| `Transformations3.TransformAnglesIntended` | transformations3.py:88-91 | with `drone_world` assigned, every call returns angles, namely the roll and pitch of `drone_world`'s rotation block |
| `Transformations3.IntendedBlockForm` | transformations3.py:60-89 | the corrected result is the roll and pitch of `ned_T_enu · R_chain · R`, where `R` is the camera rotation from `from_euler` and `R_chain` the rotation block of `drone_T_nedcam` |
| `MatrixToUrdfPlots.PrintedOrigin` | matrix_to_urdf_plots.py:75-80 | the origin printed for `T = drone_T_nedcam` has position [0,0,0.3] and the angles of its rotation block |
| `MatrixToUrdfPlots.NedTEnu4Involution` | matrix_to_urdf_plots.py:56-61 | the 4x4 `ned_T_enu` has zero translation and is its own inverse |
| `MatrixToUrdfPlots.WorldTCv4Involution` | matrix_to_urdf_plots.py:62-67 | the 4x4 `world_T_cv` has zero translation and is its own inverse |
| `MatrixToUrdfPlots.FrameChangesSelfInverse` | matrix_to_urdf_plots.py:56-67 | the closed-form inverse of each of the two frame changes is that frame change itself |

## Left out

- Every scipy `Rotation` call is a parameter, and its values are not modelled: `from_matrix`, `as_euler('xyz')` and `from_euler`. They are a foreign library.
- `math.atan2`, `math.sqrt` and `math.degrees` in `extract_xyz_rpy` are parameters. They are transcendental floating-point functions with no exact model over the reals.
- Floating-point rounding in general. Only products among the constants are exact in floating point. No claim is made that the 0.25881905 / 0.96592583 block is orthonormal; `Frames.MountBlockNotOrthonormal` proves it is not.
- Printing is not modelled: `print`, `print_urdf_origin`, `np.set_printoptions` and float formatting. Output formatting carries no algebra.
- The matplotlib code is not modelled: `plot_frame`, figure and axis set-up, `plt.show`. It is display only. In `Transformations3.TransformAngles` the plotting happens before the NameError and is not modelled.
- The camera intrinsics `K`, `D`, `im_size`, `fov_x` and `fov_y` of `transformations2.py` are not modelled. The function never reads them.
- `transformations.py` is not part of this model. It calls `R` without importing it, and its only algebra repeats the chain above.
- `GetRpw.ExtractXyzRpy` states the trigonometric angles only as the parameters applied to the named rotation entries, because the routines' values are not modelled.
- `Transformations2.TransformAngles`, `Transformations2.WorldAngles`, `Transformations2.TransformAnglesInjective`, `Transformations2.TransformAnglesAdditive` and `Transformations2.TransformAnglesHomogeneous` are real-number idealisations: in floating point, multiplying the camera pitch by 0.25881905 rounds, so two nearby pitches can give the same drone roll, and sums and scalings hold only up to rounding.
- `Transformations3.FramesOf`, `Transformations3.DroneWorld` and `Transformations3.TransformAnglesIntended` are likewise exact only over the reals for a general camera rotation, whose entries are multiplied by 0.25881905 and 0.96592583.
- `Transformations3.TransformAnglesIntended` states the returned angles only in terms of the parameter `asEuler`, for the same reason.
- Over the reals `R^T R = I` and `R R^T = I` imply each other, but that is not proved here. The two inverse lemmas are therefore stated with the condition each needs.

## Findings

| source | as written | input that shows it | evidently intended | confidence | as-written member | corrected member |
|---|---|---|---|---|---|---|
| transformations3.py:88 | reads `drone_world[:3, :3]`, but `drone_world` is assigned only in the commented-out line 72, so every call raises NameError after plotting | the script's own call `transform_angles(-0, -0)` at line 95 | `drone_world = ned_T_enu.T @ drone_frame` (line 72), whose roll and pitch are returned | high; not executed | `Transformations3.TransformAngles` | `Transformations3.TransformAnglesIntended` |
