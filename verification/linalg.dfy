/**
 Fixed-size real linear algebra for homogeneous rigid transforms: 3- and
 4-vectors, 3x3 and 4x4 matrices stored row by row, their products, and the
 block view of a 4x4 matrix as a rotation block, a translation column and a
 bottom row. This is the exact-arithmetic counterpart of the numpy `@`,
 `np.dot`, `.T`, `np.eye` and slice operations the scripts use.

 Function bodies take their arguments apart with pattern lets rather than
 field selectors; that keeps the verifier's evaluation of constant matrices
 from looping.
 */
module Linalg {

  datatype Vec3 = Vec3(x: real, y: real, z: real)
  datatype Vec4 = Vec4(x: real, y: real, z: real, w: real)

  /** A 3x3 matrix, one field per row. */
  datatype Mat3 = Mat3(r0: Vec3, r1: Vec3, r2: Vec3)

  /** A 4x4 matrix, one field per row; entry `w` of rows 0..2 is the translation. */
  datatype Mat4 = Mat4(r0: Vec4, r1: Vec4, r2: Vec4, r3: Vec4)

  const Zero3: Vec3 := Vec3(0.0, 0.0, 0.0)

  /** The bottom row every rigid transform carries. */
  const UnitW: Vec4 := Vec4(0.0, 0.0, 0.0, 1.0)

  const Identity3: Mat3 :=
    Mat3(Vec3(1.0, 0.0, 0.0),
         Vec3(0.0, 1.0, 0.0),
         Vec3(0.0, 0.0, 1.0))

  /** `np.eye(4)` */
  const Identity4: Mat4 :=
    Mat4(Vec4(1.0, 0.0, 0.0, 0.0),
         Vec4(0.0, 1.0, 0.0, 0.0),
         Vec4(0.0, 0.0, 1.0, 0.0),
         UnitW)

  // ---------------------------------------------------------------- vectors

  function Add3(u: Vec3, v: Vec3): Vec3 {
    var Vec3(a0, a1, a2) := u;
    var Vec3(b0, b1, b2) := v;
    Vec3(a0 + b0, a1 + b1, a2 + b2)
  }

  function Scale3(s: real, v: Vec3): Vec3 {
    var Vec3(a0, a1, a2) := v;
    Vec3(s * a0, s * a1, s * a2)
  }

  /** Unary minus on a vector, numpy's `-v`. */
  function Neg3(v: Vec3): Vec3 {
    var Vec3(a0, a1, a2) := v;
    Vec3(-a0, -a1, -a2)
  }

  function Dot3(u: Vec3, v: Vec3): real {
    var Vec3(a0, a1, a2) := u;
    var Vec3(b0, b1, b2) := v;
    a0 * b0 + a1 * b1 + a2 * b2
  }

  function Add4(u: Vec4, v: Vec4): Vec4 {
    var Vec4(a0, a1, a2, a3) := u;
    var Vec4(b0, b1, b2, b3) := v;
    Vec4(a0 + b0, a1 + b1, a2 + b2, a3 + b3)
  }

  function Scale4(s: real, v: Vec4): Vec4 {
    var Vec4(a0, a1, a2, a3) := v;
    Vec4(s * a0, s * a1, s * a2, s * a3)
  }

  /** The first three entries of a row of a 4x4 matrix. */
  function Head(v: Vec4): Vec3 {
    var Vec4(a0, a1, a2, _) := v;
    Vec3(a0, a1, a2)
  }

  // --------------------------------------------------------------- 3x3 matrices

  /** `m.T` */
  function Transpose3(m: Mat3): Mat3 {
    var Mat3(Vec3(a, b, c), Vec3(d, e, f), Vec3(g, h, i)) := m;
    Mat3(Vec3(a, d, g), Vec3(b, e, h), Vec3(c, f, i))
  }

  /** Unary minus on a matrix, numpy's `-m`. */
  function NegMat3(m: Mat3): Mat3 {
    var Mat3(m0, m1, m2) := m;
    Mat3(Neg3(m0), Neg3(m1), Neg3(m2))
  }

  /** Matrix times column vector, `np.dot(m, v)` or `m @ v`. */
  function Apply3(m: Mat3, v: Vec3): Vec3 {
    var Mat3(m0, m1, m2) := m;
    Vec3(Dot3(m0, v), Dot3(m1, v), Dot3(m2, v))
  }

  /** Row vector times matrix: the combination u.x*row0 + u.y*row1 + u.z*row2. */
  function Combine3(u: Vec3, m: Mat3): Vec3 {
    var Vec3(c0, c1, c2) := u;
    var Mat3(m0, m1, m2) := m;
    Add3(Add3(Scale3(c0, m0), Scale3(c1, m1)), Scale3(c2, m2))
  }

  /** Matrix product: row i of `a @ b` combines the rows of `b` with row i of `a`. */
  function Mul3(a: Mat3, b: Mat3): Mat3 {
    var Mat3(a0, a1, a2) := a;
    Mat3(Combine3(a0, b), Combine3(a1, b), Combine3(a2, b))
  }

  // --------------------------------------------------------------- 4x4 matrices

  /** `m.T` */
  function Transpose4(m: Mat4): Mat4 {
    var Mat4(Vec4(a, b, c, d), Vec4(e, f, g, h), Vec4(i, j, k, l), Vec4(n, o, p, q)) := m;
    Mat4(Vec4(a, e, i, n), Vec4(b, f, j, o), Vec4(c, g, k, p), Vec4(d, h, l, q))
  }

  /** The four-term dot product, grouped as (a + b) + (c + d). */
  function Dot4(u: Vec4, v: Vec4): real {
    var Vec4(a0, a1, a2, a3) := u;
    var Vec4(b0, b1, b2, b3) := v;
    a0 * b0 + a1 * b1 + (a2 * b2 + a3 * b3)
  }

  /** Row vector times matrix: entry j is the dot product of `u` with column j of `m`. */
  function Combine4(u: Vec4, m: Mat4): Vec4 {
    var Mat4(k0, k1, k2, k3) := Transpose4(m);
    Vec4(Dot4(u, k0), Dot4(u, k1), Dot4(u, k2), Dot4(u, k3))
  }

  /** The numpy product `a @ b` of two 4x4 arrays. */
  function Mul4(a: Mat4, b: Mat4): Mat4 {
    var Mat4(a0, a1, a2, a3) := a;
    Mat4(Combine4(a0, b), Combine4(a1, b), Combine4(a2, b), Combine4(a3, b))
  }

  // ------------------------------------------------------------- block view

  /** `m[:3, :3]` */
  function Rot(m: Mat4): Mat3 {
    var Mat4(m0, m1, m2, _) := m;
    Mat3(Head(m0), Head(m1), Head(m2))
  }

  /** `m[:3, 3]` */
  function Trans(m: Mat4): Vec3 {
    var Mat4(Vec4(_, _, _, t0), Vec4(_, _, _, t1), Vec4(_, _, _, t2), _) := m;
    Vec3(t0, t1, t2)
  }

  /** A matrix whose bottom row is [0, 0, 0, 1]. */
  predicate IsAffine(m: Mat4) {
    m.r3 == UnitW
  }

  /** The slice assignment `m[:3, :3] = r`: only the rotation block changes. */
  function WithRot(m: Mat4, r: Mat3): (res: Mat4)
    ensures Rot(res) == r
    ensures Trans(res) == Trans(m) && res.r3 == m.r3
  {
    var Mat4(Vec4(_, _, _, t0), Vec4(_, _, _, t1), Vec4(_, _, _, t2), m3) := m;
    var Mat3(Vec3(a, b, c), Vec3(d, e, f), Vec3(g, h, i)) := r;
    Mat4(Vec4(a, b, c, t0), Vec4(d, e, f, t1), Vec4(g, h, i, t2), m3)
  }

  /** The slice assignment `m[:3, 3] = t`: only the translation column changes. */
  function WithTrans(m: Mat4, t: Vec3): (res: Mat4)
    ensures Trans(res) == t
    ensures Rot(res) == Rot(m) && res.r3 == m.r3
  {
    var Mat4(Vec4(a, b, c, _), Vec4(d, e, f, _), Vec4(g, h, i, _), m3) := m;
    var Vec3(t0, t1, t2) := t;
    Mat4(Vec4(a, b, c, t0), Vec4(d, e, f, t1), Vec4(g, h, i, t2), m3)
  }

  /** `np.eye(4)` with the rotation block and then the translation column assigned. */
  function Homogeneous(r: Mat3, t: Vec3): (m: Mat4)
    ensures Rot(m) == r && Trans(m) == t && IsAffine(m)
  {
    WithTrans(WithRot(Identity4, r), t)
  }

  /** A matrix with bottom row [0,0,0,1] is determined by its two blocks. */
  lemma HomogeneousOfBlocks(m: Mat4)
    requires IsAffine(m)
    ensures Homogeneous(Rot(m), Trans(m)) == m
  {
  }

  /** Two matrices with bottom row [0,0,0,1] are equal when their blocks are. */
  lemma BlocksDetermine(a: Mat4, b: Mat4)
    requires IsAffine(a) && IsAffine(b)
    requires Rot(a) == Rot(b) && Trans(a) == Trans(b)
    ensures a == b
  {
  }

  // ------------------------------------------------------- algebraic facts

  lemma Apply3Identity(v: Vec3)
    ensures Apply3(Identity3, v) == v
  {
  }

  lemma Apply3Neg(m: Mat3, v: Vec3)
    ensures Apply3(m, Neg3(v)) == Neg3(Apply3(m, v))
  {
  }

  /** (-m) v = -(m v) */
  lemma Apply3NegMat(m: Mat3, v: Vec3)
    ensures Apply3(NegMat3(m), v) == Neg3(Apply3(m, v))
  {
  }

  lemma Dot3AddLeft(x: Vec3, y: Vec3, v: Vec3)
    ensures Dot3(Add3(x, y), v) == Dot3(x, v) + Dot3(y, v)
  {
  }

  /** Plain-real form of Dot3ScaleLeft. */
  lemma ScaleSum3(s: real, a0: real, a1: real, a2: real, b0: real, b1: real, b2: real)
    ensures (s * a0) * b0 + (s * a1) * b1 + (s * a2) * b2 == s * (a0 * b0 + a1 * b1 + a2 * b2)
  {
  }

  lemma Dot3ScaleLeft(s: real, x: Vec3, v: Vec3)
    ensures Dot3(Scale3(s, x), v) == s * Dot3(x, v)
  {
    ScaleSum3(s, x.x, x.y, x.z, v.x, v.y, v.z);
  }

  /** One entry of Apply3Mul: (u b) . v = u . (b v). */
  lemma Dot3Combine3(u: Vec3, b: Mat3, v: Vec3)
    ensures Dot3(Combine3(u, b), v) == Dot3(u, Apply3(b, v))
  {
    var Vec3(c0, c1, c2) := u;
    var Mat3(b0, b1, b2) := b;
    Dot3AddLeft(Add3(Scale3(c0, b0), Scale3(c1, b1)), Scale3(c2, b2), v);
    Dot3AddLeft(Scale3(c0, b0), Scale3(c1, b1), v);
    Dot3ScaleLeft(c0, b0, v);
    Dot3ScaleLeft(c1, b1, v);
    Dot3ScaleLeft(c2, b2, v);
  }

  /** Applying a product is applying its factors in turn: (a b) v = a (b v). */
  lemma Apply3Mul(a: Mat3, b: Mat3, v: Vec3)
    ensures Apply3(Mul3(a, b), v) == Apply3(a, Apply3(b, v))
  {
    Dot3Combine3(a.r0, b, v);
    Dot3Combine3(a.r1, b, v);
    Dot3Combine3(a.r2, b, v);
  }

  lemma Mul3IdentityLeft(m: Mat3)
    ensures Mul3(Identity3, m) == m
  {
  }

  lemma Transpose3Involutive(m: Mat3)
    ensures Transpose3(Transpose3(m)) == m
  {
  }

  /** The dot product is additive in its left argument. */
  /** The three-term sum of products is unchanged when every product is commuted. */
  lemma SumOfProductsCommute(a0: real, a1: real, a2: real, b0: real, b1: real, b2: real)
    ensures a0 * b0 + a1 * b1 + a2 * b2 == b0 * a0 + b1 * a1 + b2 * a2
  {
  }

  /** `m @ v` as a row vector is `v` times `m.T`. */
  lemma Apply3AsCombine(m: Mat3, v: Vec3)
    ensures Apply3(m, v) == Combine3(v, Transpose3(m))
  {
    var Vec3(v0, v1, v2) := v;
    SumOfProductsCommute(m.r0.x, m.r0.y, m.r0.z, v0, v1, v2);
    SumOfProductsCommute(m.r1.x, m.r1.y, m.r1.z, v0, v1, v2);
    SumOfProductsCommute(m.r2.x, m.r2.y, m.r2.z, v0, v1, v2);
  }

  /** Entry j of `u @ b` is the dot product of `u` with column j of `b`. */
  lemma Combine3AsDots(u: Vec3, b: Mat3)
    ensures var bt := Transpose3(b);
            Combine3(u, b) == Vec3(Dot3(u, bt.r0), Dot3(u, bt.r1), Dot3(u, bt.r2))
  {
  }

  /** Row i of `(a @ b).T` is `a` applied to column i of `b`. */
  lemma Mul3Columns(a: Mat3, b: Mat3)
    ensures var bt := Transpose3(b);
            Transpose3(Mul3(a, b)) == Mat3(Apply3(a, bt.r0), Apply3(a, bt.r1), Apply3(a, bt.r2))
  {
    Combine3AsDots(a.r0, b);
    Combine3AsDots(a.r1, b);
    Combine3AsDots(a.r2, b);
  }

  /** `(a @ b).T == b.T @ a.T` */
  lemma Transpose3Mul(a: Mat3, b: Mat3)
    ensures Transpose3(Mul3(a, b)) == Mul3(Transpose3(b), Transpose3(a))
  {
    var bt := Transpose3(b);
    Mul3Columns(a, b);
    Apply3AsCombine(a, bt.r0);
    Apply3AsCombine(a, bt.r1);
    Apply3AsCombine(a, bt.r2);
  }

  lemma Dot4AddLeft(x: Vec4, y: Vec4, k: Vec4)
    ensures Dot4(Add4(x, y), k) == Dot4(x, k) + Dot4(y, k)
  {
  }

  /** Plain-real form of Dot4ScaleLeft. */
  lemma ScaleSum4(s: real, a0: real, a1: real, a2: real, a3: real, b0: real, b1: real, b2: real, b3: real)
    ensures (s * a0) * b0 + (s * a1) * b1 + ((s * a2) * b2 + (s * a3) * b3)
         == s * (a0 * b0 + a1 * b1 + (a2 * b2 + a3 * b3))
  {
  }

  /** The dot product is homogeneous in its left argument. */
  lemma Dot4ScaleLeft(s: real, x: Vec4, k: Vec4)
    ensures Dot4(Scale4(s, x), k) == s * Dot4(x, k)
  {
    ScaleSum4(s, x.x, x.y, x.z, x.w, k.x, k.y, k.z, k.w);
  }

  /** Row-times-matrix is additive in the row. */
  lemma Combine4AddLeft(x: Vec4, y: Vec4, c: Mat4)
    ensures Combine4(Add4(x, y), c) == Add4(Combine4(x, c), Combine4(y, c))
  {
    var Mat4(k0, k1, k2, k3) := Transpose4(c);
    Dot4AddLeft(x, y, k0);
    Dot4AddLeft(x, y, k1);
    Dot4AddLeft(x, y, k2);
    Dot4AddLeft(x, y, k3);
  }

  /** Row-times-matrix is homogeneous in the row. */
  lemma Combine4ScaleLeft(s: real, x: Vec4, c: Mat4)
    ensures Combine4(Scale4(s, x), c) == Scale4(s, Combine4(x, c))
  {
    var Mat4(k0, k1, k2, k3) := Transpose4(c);
    Dot4ScaleLeft(s, x, k0);
    Dot4ScaleLeft(s, x, k1);
    Dot4ScaleLeft(s, x, k2);
    Dot4ScaleLeft(s, x, k3);
    assert Scale4(s, Combine4(x, c)) == Vec4(s * Dot4(x, k0), s * Dot4(x, k1), s * Dot4(x, k2), s * Dot4(x, k3));
  }

  /** u b is the combination of b's rows weighted by u's entries. */
  function RowCombination(u: Vec4, b: Mat4): Vec4 {
    var Vec4(c0, c1, c2, c3) := u;
    var Mat4(b0, b1, b2, b3) := b;
    Add4(Add4(Scale4(c0, b0), Scale4(c1, b1)), Add4(Scale4(c2, b2), Scale4(c3, b3)))
  }

  lemma Combine4IsRowCombination(u: Vec4, b: Mat4)
    ensures Combine4(u, b) == RowCombination(u, b)
  {
  }

  /** One row of the associativity law: (u b) c = u (b c). */
  lemma Combine4Assoc(u: Vec4, b: Mat4, c: Mat4)
    ensures Combine4(Combine4(u, b), c) == Combine4(u, Mul4(b, c))
  {
    var Vec4(c0, c1, c2, c3) := u;
    var Mat4(b0, b1, b2, b3) := b;
    Combine4IsRowCombination(u, b);
    Combine4IsRowCombination(u, Mul4(b, c));
    var s0, s1, s2, s3 := Scale4(c0, b0), Scale4(c1, b1), Scale4(c2, b2), Scale4(c3, b3);
    Combine4AddLeft(Add4(s0, s1), Add4(s2, s3), c);
    Combine4AddLeft(s0, s1, c);
    Combine4AddLeft(s2, s3, c);
    Combine4ScaleLeft(c0, b0, c);
    Combine4ScaleLeft(c1, b1, c);
    Combine4ScaleLeft(c2, b2, c);
    Combine4ScaleLeft(c3, b3, c);
  }

  /** The 4x4 product is associative, so a chain may be grouped either way. */
  lemma Mul4Assoc(a: Mat4, b: Mat4, c: Mat4)
    ensures Mul4(Mul4(a, b), c) == Mul4(a, Mul4(b, c))
  {
    Combine4Assoc(a.r0, b, c);
    Combine4Assoc(a.r1, b, c);
    Combine4Assoc(a.r2, b, c);
    Combine4Assoc(a.r3, b, c);
  }

  lemma Mul4Identity(m: Mat4)
    ensures Mul4(Identity4, m) == m && Mul4(m, Identity4) == m
  {
  }

  /** Products of matrices with bottom row [0,0,0,1] keep that bottom row. */
  lemma AffineClosed(a: Mat4, b: Mat4)
    requires IsAffine(a) && IsAffine(b)
    ensures IsAffine(Mul4(a, b))
  {
  }

  /**
   The block form of a product whose right factor has bottom row [0,0,0,1]:
   rotation R_a R_b and translation R_a t_b + t_a.
   */
  lemma BlockProduct(a: Mat4, b: Mat4)
    requires IsAffine(b)
    ensures Rot(Mul4(a, b)) == Mul3(Rot(a), Rot(b))
    ensures Trans(Mul4(a, b)) == Add3(Apply3(Rot(a), Trans(b)), Trans(a))
  {
    var Mat4(a0, a1, a2, _) := a;
    BlockRow(a0, b);
    BlockRow(a1, b);
    BlockRow(a2, b);
  }

  /** One row of BlockProduct. */
  lemma BlockRow(u: Vec4, b: Mat4)
    requires IsAffine(b)
    ensures Head(Combine4(u, b)) == Combine3(Head(u), Rot(b))
    ensures Combine4(u, b).w == Dot3(Head(u), Trans(b)) + u.w
  {
  }
}
