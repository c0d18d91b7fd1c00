/**
 `matrix_to_urdf.py`: reading the URDF origin (xyz and roll-pitch-yaw) out of
 a 4x4 transform, and the closed-form inverse of a rigid transform.
 */
module MatrixToUrdf {
  import opened Linalg

  /** The two halves of a URDF `<origin>`: position and fixed-axis Euler angles. */
  datatype UrdfOrigin = UrdfOrigin(xyz: Vec3, rpy: Vec3)

  /**
   `matrix_to_xyz_rpy`: the translation column, and the rotation block handed
   to the Euler-angle routine `eulerOf` (scipy's 'xyz' convention, a
   parameter here). The bottom row is never looked at.
   */
  function MatrixToXyzRpy(m: Mat4, eulerOf: Mat3 -> Vec3): (o: UrdfOrigin)
    ensures o.xyz == Vec3(m.r0.w, m.r1.w, m.r2.w)
    ensures o.rpy == eulerOf(Rot(m))
  {
    UrdfOrigin(Trans(m), eulerOf(Rot(m)))
  }

  /**
   `inverse_transformation`: rotation block R^T and translation (-R^T) t,
   assembled into a fresh identity matrix. Only the top three rows of the
   input are read; the result always has bottom row [0,0,0,1].
   */
  function InverseTransformation(m: Mat4): (inv: Mat4)
    ensures IsAffine(inv)
    ensures Rot(inv) == Transpose3(Rot(m))
    ensures Trans(inv) == Neg3(Apply3(Transpose3(Rot(m)), Trans(m)))
  {
    var rotation := Rot(m);
    var translation := Trans(m);
    var invRotation := Transpose3(rotation);
    var invTranslation := Apply3(NegMat3(invRotation), translation);
    Apply3NegMat(invRotation, translation);
    WithTrans(WithRot(Identity4, invRotation), invTranslation)
  }

  /** A URDF origin read back from an assembled transform gives its parts. */
  lemma XyzRpyOfHomogeneous(r: Mat3, t: Vec3, eulerOf: Mat3 -> Vec3)
    ensures MatrixToXyzRpy(Homogeneous(r, t), eulerOf) == UrdfOrigin(t, eulerOf(r))
  {
  }

  /**
   A corollary of the contract of `MatrixToXyzRpy`, kept as documentation:
   the position depends only on the translation column, the angles only on
   the rotation block.
   */
  lemma XyzRpySeparate(m: Mat4, n: Mat4, eulerOf: Mat3 -> Vec3)
    ensures Trans(m) == Trans(n) ==> MatrixToXyzRpy(m, eulerOf).xyz == MatrixToXyzRpy(n, eulerOf).xyz
    ensures Rot(m) == Rot(n) ==> MatrixToXyzRpy(m, eulerOf).rpy == MatrixToXyzRpy(n, eulerOf).rpy
  {
  }

  /** The inverse reads nothing but the two blocks. */
  lemma InverseIgnoresBottomRow(m: Mat4, n: Mat4)
    requires Rot(m) == Rot(n) && Trans(m) == Trans(n)
    ensures InverseTransformation(m) == InverseTransformation(n)
  {
  }

  /** Inverting twice restores the rotation block of any input. */
  lemma InverseRotationRoundTrip(m: Mat4)
    ensures Rot(InverseTransformation(InverseTransformation(m))) == Rot(m)
  {
    Transpose3Involutive(Rot(m));
  }

  /**
   For an input with bottom row [0,0,0,1], the result is a left inverse
   exactly when R^T R = I.
   */
  lemma LeftInverseIff(m: Mat4)
    requires IsAffine(m)
    ensures Mul4(InverseTransformation(m), m) == Identity4
        <==> Mul3(Transpose3(Rot(m)), Rot(m)) == Identity3
  {
    var inv := InverseTransformation(m);
    var p := Mul4(inv, m);
    BlockProduct(inv, m);
    AffineClosed(inv, m);
    var rt := Transpose3(Rot(m));
    assert Trans(p) == Add3(Apply3(rt, Trans(m)), Neg3(Apply3(rt, Trans(m))));
    assert Trans(p) == Zero3;
    if Mul3(rt, Rot(m)) == Identity3 {
      BlocksDetermine(p, Identity4);
    }
  }

  /**
   For an input with bottom row [0,0,0,1], the result is a right inverse
   exactly when R R^T = I.
   */
  lemma RightInverseIff(m: Mat4)
    requires IsAffine(m)
    ensures Mul4(m, InverseTransformation(m)) == Identity4
        <==> Mul3(Rot(m), Transpose3(Rot(m))) == Identity3
  {
    var inv := InverseTransformation(m);
    var p := Mul4(m, inv);
    BlockProduct(m, inv);
    AffineClosed(m, inv);
    var r, t := Rot(m), Trans(m);
    if Mul3(r, Transpose3(r)) == Identity3 {
      Apply3Neg(r, Apply3(Transpose3(r), t));
      Apply3Mul(r, Transpose3(r), t);
      Apply3Identity(t);
      assert Trans(p) == Add3(Neg3(t), t);
      BlocksDetermine(p, Identity4);
    }
  }

  /** With R R^T = I and bottom row [0,0,0,1], inverting twice gives back the input. */
  lemma InverseInvolutive(m: Mat4)
    requires IsAffine(m)
    requires Mul3(Rot(m), Transpose3(Rot(m))) == Identity3
    ensures InverseTransformation(InverseTransformation(m)) == m
  {
    var r, t := Rot(m), Trans(m);
    var inv := InverseTransformation(m);
    var back := InverseTransformation(inv);
    Transpose3Involutive(r);
    assert Trans(back) == Neg3(Apply3(r, Neg3(Apply3(Transpose3(r), t))));
    Apply3Neg(r, Apply3(Transpose3(r), t));
    Apply3Mul(r, Transpose3(r), t);
    Apply3Identity(t);
    BlocksDetermine(back, m);
  }

  /**
   Rigid transforms are closed under composition: with bottom row [0,0,0,1]
   and R R^T = I for both factors, the product has both properties too. The
   closed-form inverses, composed in the opposite order, invert the product.
   */
  lemma RigidClosed(a: Mat4, b: Mat4)
    requires IsAffine(a) && IsAffine(b)
    requires Mul3(Rot(a), Transpose3(Rot(a))) == Identity3
    requires Mul3(Rot(b), Transpose3(Rot(b))) == Identity3
    ensures IsAffine(Mul4(a, b))
    ensures Mul3(Rot(Mul4(a, b)), Transpose3(Rot(Mul4(a, b)))) == Identity3
  {
    var ab := Mul4(a, b);
    var invA, invB := InverseTransformation(a), InverseTransformation(b);
    var x := Mul4(invB, invA);
    AffineClosed(a, b);
    RightInverseIff(a);
    RightInverseIff(b);
    calc {
      Mul4(ab, x);
      { Mul4Assoc(a, b, x); }
      Mul4(a, Mul4(b, x));
      { Mul4Assoc(b, invB, invA); }
      Mul4(a, Mul4(Mul4(b, invB), invA));
      { Mul4Identity(invA); }
      Identity4;
    }
    BlockProduct(ab, x);
    BlockProduct(invB, invA);
    BlockProduct(a, b);
    Transpose3Mul(Rot(a), Rot(b));
  }

  /** Both identities need the bottom row: with [0,0,0,2] neither product is the identity. */
  lemma InverseNeedsBottomRow()
    ensures var m := Mat4(Identity4.r0, Identity4.r1, Identity4.r2, Vec4(0.0, 0.0, 0.0, 2.0));
            Mul3(Rot(m), Transpose3(Rot(m))) == Identity3
            && Mul4(InverseTransformation(m), m) != Identity4
            && Mul4(m, InverseTransformation(m)) != Identity4
  {
    var m := Mat4(Identity4.r0, Identity4.r1, Identity4.r2, Vec4(0.0, 0.0, 0.0, 2.0));
    assert InverseTransformation(m) == Identity4;
    Mul4Identity(m);
  }

  /** A pure translation is inverted by negating the offset. */
  lemma PureTranslationInverse(m: Mat4)
    requires Rot(m) == Identity3
    ensures InverseTransformation(m) == Homogeneous(Identity3, Neg3(Trans(m)))
  {
    Apply3Identity(Trans(m));
    BlocksDetermine(InverseTransformation(m), Homogeneous(Identity3, Neg3(Trans(m))));
  }

  /** The script's `target_T_source`. */
  const TargetTSource: Mat4 :=
    Mat4(Vec4(0.0, -1.0, 0.0, 0.5),
         Vec4(0.0, 0.0, 1.0, 0.5),
         Vec4(-1.0, 0.0, 0.0, 0.5),
         UnitW)

  /**
   The example: its URDF position is (0.5, 0.5, 0.5), its rotation block is
   orthonormal, so the closed-form inverse is a two-sided inverse.
   */
  lemma TargetTSourceExample(eulerOf: Mat3 -> Vec3)
    ensures MatrixToXyzRpy(TargetTSource, eulerOf).xyz == Vec3(0.5, 0.5, 0.5)
    ensures InverseTransformation(TargetTSource)
         == Mat4(Vec4(0.0, 0.0, -1.0, 0.5),
                 Vec4(-1.0, 0.0, 0.0, 0.5),
                 Vec4(0.0, 1.0, 0.0, -0.5),
                 UnitW)
    ensures Mul4(InverseTransformation(TargetTSource), TargetTSource) == Identity4
    ensures Mul4(TargetTSource, InverseTransformation(TargetTSource)) == Identity4
  {
    LeftInverseIff(TargetTSource);
    RightInverseIff(TargetTSource);
  }
}
