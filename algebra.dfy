/** Exact real-number stand-ins for the small part of nalgebra that the renderer,
    the physics state and the shape builders use: 3- and 4-vectors, 3x3 and 4x4
    matrices stored column by column (nalgebra's storage order), homogeneous
    coordinates, and the exact quarter-turn rotations about the x and y axes. */
module Algebra {

  datatype Option<T> = None | Some(value: T)

  datatype Vec3 = Vec3(x: real, y: real, z: real)
  datatype Vec4 = Vec4(x: real, y: real, z: real, w: real)

  const Zero3 := Vec3(0.0, 0.0, 0.0)
  const UnitX := Vec3(1.0, 0.0, 0.0)
  const UnitY := Vec3(0.0, 1.0, 0.0)
  const UnitZ := Vec3(0.0, 0.0, 1.0)

  function Add(a: Vec3, b: Vec3): Vec3 { Vec3(a.x + b.x, a.y + b.y, a.z + b.z) }
  function Scale(a: Vec3, k: real): Vec3 { Vec3(a.x * k, a.y * k, a.z * k) }
  function Dot(a: Vec3, b: Vec3): real { a.x * b.x + a.y * b.y + a.z * b.z }
  function Cross(a: Vec3, b: Vec3): Vec3 {
    Vec3(a.y * b.z - a.z * b.y, a.z * b.x - a.x * b.z, a.x * b.y - a.y * b.x)
  }

  function Add4(a: Vec4, b: Vec4): Vec4 { Vec4(a.x + b.x, a.y + b.y, a.z + b.z, a.w + b.w) }
  function Scale4(a: Vec4, k: real): Vec4 { Vec4(a.x * k, a.y * k, a.z * k, a.w * k) }

  // ---------------------------------------------------------------------------
  // 3x3 matrices (the storage of nalgebra's Rotation3)

  /** A 3x3 matrix given by its three columns. */
  datatype Mat3 = Mat3(c0: Vec3, c1: Vec3, c2: Vec3)

  /** Matrix times column vector: the columns weighted by the vector's components. */
  function Apply3(m: Mat3, v: Vec3): Vec3 {
    Add(Add(Scale(m.c0, v.x), Scale(m.c1, v.y)), Scale(m.c2, v.z))
  }

  function Mul3(a: Mat3, b: Mat3): Mat3 {
    Mat3(Apply3(a, b.c0), Apply3(a, b.c1), Apply3(a, b.c2))
  }

  const Identity3 := Mat3(UnitX, UnitY, UnitZ)

  function Det3(m: Mat3): real { Dot(m.c0, Cross(m.c1, m.c2)) }

  /** Unit columns, pairwise orthogonal: what a rotation matrix must stay. */
  ghost predicate IsOrthonormal(m: Mat3) {
    Dot(m.c0, m.c0) == 1.0 && Dot(m.c1, m.c1) == 1.0 && Dot(m.c2, m.c2) == 1.0 &&
    Dot(m.c0, m.c1) == 0.0 && Dot(m.c0, m.c2) == 0.0 && Dot(m.c1, m.c2) == 0.0
  }

  ghost predicate IsRotation(m: Mat3) { IsOrthonormal(m) && Det3(m) == 1.0 }

  lemma ScaleByZero(a: Vec3)
    ensures Scale(a, 0.0) == Zero3
  {
  }

  lemma ScaleByOne(a: Vec3)
    ensures Scale(a, 1.0) == a
  {
  }

  lemma ScaleTwice(a: Vec3, s: real, k: real)
    ensures Scale(Scale(a, s), k) == Scale(a, k * s)
  {
  }

  /** A vector along one axis picks out the matching column, scaled. */
  lemma ApplyAlongAxes(m: Mat3, s: real)
    ensures Apply3(m, Vec3(s, 0.0, 0.0)) == Scale(m.c0, s)
    ensures Apply3(m, Vec3(0.0, s, 0.0)) == Scale(m.c1, s)
    ensures Apply3(m, Vec3(0.0, 0.0, s)) == Scale(m.c2, s)
  {
    ScaleByZero(m.c0);
    ScaleByZero(m.c1);
    ScaleByZero(m.c2);
  }

  lemma ApplyUnitColumns(m: Mat3)
    ensures Apply3(m, UnitX) == m.c0 && Apply3(m, UnitY) == m.c1 && Apply3(m, UnitZ) == m.c2
  {
    ApplyAlongAxes(m, 1.0);
    ScaleByOne(m.c0);
    ScaleByOne(m.c1);
    ScaleByOne(m.c2);
  }

  lemma ApplyToZero(m: Mat3)
    ensures Apply3(m, Zero3) == Zero3
  {
    ApplyAlongAxes(m, 0.0);
    ScaleByZero(m.c0);
  }

  lemma ApplyIdentity3(v: Vec3)
    ensures Apply3(Identity3, v) == v
  {
  }

  lemma Identity3Neutral(m: Mat3)
    ensures Mul3(m, Identity3) == m && Mul3(Identity3, m) == m
  {
    ApplyUnitColumns(m);
    ApplyIdentity3(m.c0);
    ApplyIdentity3(m.c1);
    ApplyIdentity3(m.c2);
  }

  lemma Identity3Orthonormal()
    ensures IsOrthonormal(Identity3)
  {
  }

  lemma Identity3IsRotation()
    ensures IsRotation(Identity3)
  {
    Identity3Orthonormal();
  }

  // ---------------------------------------------------------------------------
  // Orthonormal matrices are closed under products

  /** Dot product against a matrix image, expanded by the image's columns. */
  lemma DotApplyLeft(a: Mat3, u: Vec3, w: Vec3)
    ensures Dot(Apply3(a, u), w) == u.x * Dot(a.c0, w) + u.y * Dot(a.c1, w) + u.z * Dot(a.c2, w)
  {
    DotSymmetric(Apply3(a, u), w);
    DotApplyRight(w, a, u);
    DotSymmetric(w, a.c0);
    DotSymmetric(w, a.c1);
    DotSymmetric(w, a.c2);
  }

  lemma DotApplyRight(c: Vec3, a: Mat3, v: Vec3)
    ensures Dot(c, Apply3(a, v)) == v.x * Dot(c, a.c0) + v.y * Dot(c, a.c1) + v.z * Dot(c, a.c2)
  {
    var u0, u1, u2 := Scale(a.c0, v.x), Scale(a.c1, v.y), Scale(a.c2, v.z);
    DotAdd(c, Add(u0, u1), u2);
    DotAdd(c, u0, u1);
    DotScale(c, a.c0, v.x);
    DotScale(c, a.c1, v.y);
    DotScale(c, a.c2, v.z);
  }

  lemma DotAdd(c: Vec3, u: Vec3, w: Vec3)
    ensures Dot(c, Add(u, w)) == Dot(c, u) + Dot(c, w)
  {
  }

  lemma DotScale(c: Vec3, u: Vec3, k: real)
    ensures Dot(c, Scale(u, k)) == k * Dot(c, u)
  {
  }

  lemma DotSymmetric(u: Vec3, v: Vec3)
    ensures Dot(u, v) == Dot(v, u)
  {
  }

  /** A column of an orthonormal matrix against the image of v picks out v's
      matching component. */
  lemma DotColumnImage(a: Mat3, v: Vec3)
    requires IsOrthonormal(a)
    ensures Dot(a.c0, Apply3(a, v)) == v.x
    ensures Dot(a.c1, Apply3(a, v)) == v.y
    ensures Dot(a.c2, Apply3(a, v)) == v.z
  {
    DotApplyRight(a.c0, a, v);
    DotApplyRight(a.c1, a, v);
    DotApplyRight(a.c2, a, v);
    DotSymmetric(a.c1, a.c0);
    DotSymmetric(a.c2, a.c0);
    DotSymmetric(a.c2, a.c1);
  }

  /** An orthonormal matrix keeps dot products. */
  lemma OrthonormalKeepsDot(a: Mat3, u: Vec3, v: Vec3)
    requires IsOrthonormal(a)
    ensures Dot(Apply3(a, u), Apply3(a, v)) == Dot(u, v)
  {
    DotApplyLeft(a, u, Apply3(a, v));
    DotColumnImage(a, v);
  }

  /** The product of two orthonormal matrices is orthonormal: composing
      rotations keeps the basis unit length and pairwise orthogonal. */
  lemma OrthonormalCompose(a: Mat3, b: Mat3)
    requires IsOrthonormal(a) && IsOrthonormal(b)
    ensures IsOrthonormal(Mul3(a, b))
  {
    OrthonormalKeepsDot(a, b.c0, b.c0);
    OrthonormalKeepsDot(a, b.c1, b.c1);
    OrthonormalKeepsDot(a, b.c2, b.c2);
    OrthonormalKeepsDot(a, b.c0, b.c1);
    OrthonormalKeepsDot(a, b.c0, b.c2);
    OrthonormalKeepsDot(a, b.c1, b.c2);
  }

  // ---------------------------------------------------------------------------
  // Exact quarter turns: Rotation3::new(axis * (+/- pi/2)) for the x and y axes

  /** +pi/2 about x: y goes to z, z goes to -y. */
  const QuarterTurnXPos := Mat3(Vec3(1.0, 0.0, 0.0), Vec3(0.0, 0.0, 1.0), Vec3(0.0, -1.0, 0.0))
  /** -pi/2 about x: y goes to -z, z goes to y. */
  const QuarterTurnXNeg := Mat3(Vec3(1.0, 0.0, 0.0), Vec3(0.0, 0.0, -1.0), Vec3(0.0, 1.0, 0.0))
  /** +pi/2 about y: z goes to x, x goes to -z. */
  const QuarterTurnYPos := Mat3(Vec3(0.0, 0.0, -1.0), Vec3(0.0, 1.0, 0.0), Vec3(1.0, 0.0, 0.0))
  /** -pi/2 about y: x goes to z, z goes to -x. */
  const QuarterTurnYNeg := Mat3(Vec3(0.0, 0.0, 1.0), Vec3(0.0, 1.0, 0.0), Vec3(-1.0, 0.0, 0.0))

  /** Each quarter turn permutes the coordinates and flips one sign. */
  lemma ApplyQuarterTurns(v: Vec3)
    ensures Apply3(QuarterTurnXPos, v) == Vec3(v.x, -v.z, v.y)
    ensures Apply3(QuarterTurnXNeg, v) == Vec3(v.x, v.z, -v.y)
    ensures Apply3(QuarterTurnYPos, v) == Vec3(v.z, v.y, -v.x)
    ensures Apply3(QuarterTurnYNeg, v) == Vec3(-v.z, v.y, v.x)
  {
  }

  lemma QuarterTurnXPosOrthonormal()
    ensures IsOrthonormal(QuarterTurnXPos)
  {
  }

  lemma QuarterTurnXPosIsRotation()
    ensures IsRotation(QuarterTurnXPos)
  {
    QuarterTurnXPosOrthonormal();
  }

  lemma QuarterTurnXNegOrthonormal()
    ensures IsOrthonormal(QuarterTurnXNeg)
  {
  }

  lemma QuarterTurnXNegIsRotation()
    ensures IsRotation(QuarterTurnXNeg)
  {
    QuarterTurnXNegOrthonormal();
  }

  lemma QuarterTurnYPosOrthonormal()
    ensures IsOrthonormal(QuarterTurnYPos)
  {
  }

  lemma QuarterTurnYPosIsRotation()
    ensures IsRotation(QuarterTurnYPos)
  {
    QuarterTurnYPosOrthonormal();
  }

  lemma QuarterTurnYNegOrthonormal()
    ensures IsOrthonormal(QuarterTurnYNeg)
  {
  }

  lemma QuarterTurnYNegIsRotation()
    ensures IsRotation(QuarterTurnYNeg)
  {
    QuarterTurnYNegOrthonormal();
  }

  lemma QuarterTurnsAreRotations()
    ensures IsRotation(QuarterTurnXPos) && IsRotation(QuarterTurnXNeg)
    ensures IsRotation(QuarterTurnYPos) && IsRotation(QuarterTurnYNeg)
  {
    QuarterTurnXPosIsRotation();
    QuarterTurnXNegIsRotation();
    QuarterTurnYPosIsRotation();
    QuarterTurnYNegIsRotation();
  }

  /** Each turn fixes its own axis. */
  lemma QuarterTurnsFixTheirAxes()
    ensures Apply3(QuarterTurnXPos, UnitX) == UnitX && Apply3(QuarterTurnXNeg, UnitX) == UnitX
    ensures Apply3(QuarterTurnYPos, UnitY) == UnitY && Apply3(QuarterTurnYNeg, UnitY) == UnitY
  {
    ApplyQuarterTurns(UnitX);
    ApplyQuarterTurns(UnitY);
  }

  // ---------------------------------------------------------------------------
  // 4x4 matrices and homogeneous coordinates

  /** A 4x4 matrix given by its four columns. */
  datatype Mat4 = Mat4(c0: Vec4, c1: Vec4, c2: Vec4, c3: Vec4)

  function Apply4(m: Mat4, v: Vec4): Vec4 {
    Add4(Add4(Scale4(m.c0, v.x), Scale4(m.c1, v.y)), Add4(Scale4(m.c2, v.z), Scale4(m.c3, v.w)))
  }

  function Mul4(a: Mat4, b: Mat4): Mat4 {
    Mat4(Apply4(a, b.c0), Apply4(a, b.c1), Apply4(a, b.c2), Apply4(a, b.c3))
  }

  const Identity4 := Mat4(Vec4(1.0, 0.0, 0.0, 0.0), Vec4(0.0, 1.0, 0.0, 0.0),
                          Vec4(0.0, 0.0, 1.0, 0.0), Vec4(0.0, 0.0, 0.0, 1.0))

  /** Matrix4::from_vec: sixteen entries read in column-major order. */
  function FromColumnMajor(s: seq<real>): Mat4
    requires |s| == 16
  {
    Mat4(Vec4(s[0], s[1], s[2], s[3]), Vec4(s[4], s[5], s[6], s[7]),
         Vec4(s[8], s[9], s[10], s[11]), Vec4(s[12], s[13], s[14], s[15]))
  }

  /** Matrix4::as_slice: the sixteen entries in column-major order. */
  function Slice(m: Mat4): seq<real> {
    [m.c0.x, m.c0.y, m.c0.z, m.c0.w, m.c1.x, m.c1.y, m.c1.z, m.c1.w,
     m.c2.x, m.c2.y, m.c2.z, m.c2.w, m.c3.x, m.c3.y, m.c3.z, m.c3.w]
  }

  lemma ColumnMajorRoundTrip(s: seq<real>, m: Mat4)
    requires |s| == 16
    ensures Slice(FromColumnMajor(s)) == s
    ensures FromColumnMajor(Slice(m)) == m
  {
  }

  /** Matrix4::from(Rotation3): the rotation in the upper-left block, 1 in the corner. */
  function Homogeneous(r: Mat3): Mat4 {
    Mat4(Vec4(r.c0.x, r.c0.y, r.c0.z, 0.0), Vec4(r.c1.x, r.c1.y, r.c1.z, 0.0),
         Vec4(r.c2.x, r.c2.y, r.c2.z, 0.0), Vec4(0.0, 0.0, 0.0, 1.0))
  }

  /** The affine map p |-> r p + t as a homogeneous 4x4 matrix. */
  function AffineMatrix(r: Mat3, t: Vec3): Mat4 {
    Mat4(Vec4(r.c0.x, r.c0.y, r.c0.z, 0.0), Vec4(r.c1.x, r.c1.y, r.c1.z, 0.0),
         Vec4(r.c2.x, r.c2.y, r.c2.z, 0.0), Vec4(t.x, t.y, t.z, 1.0))
  }

  /** The diagonal matrix diag(s, s, s, 1). */
  function ScaleMatrix(s: real): Mat4 {
    Mat4(Vec4(s, 0.0, 0.0, 0.0), Vec4(0.0, s, 0.0, 0.0), Vec4(0.0, 0.0, s, 0.0), Vec4(0.0, 0.0, 0.0, 1.0))
  }

  /** The first three columns of a scaled by s, the last kept. */
  function ScaleFirstColumns(a: Mat4, s: real): Mat4 {
    Mat4(Scale4(a.c0, s), Scale4(a.c1, s), Scale4(a.c2, s), a.c3)
  }

  /** Multiplying by diag(s, s, s, 1) on the right scales the first three
      columns and keeps the last. */
  lemma MulScaleMatrix(a: Mat4, s: real)
    ensures Mul4(a, ScaleMatrix(s)) == ScaleFirstColumns(a, s)
  {
    Apply4Axis(a, s);
  }

  /** A matrix applied to (s, 0, 0, 0), (0, s, 0, 0), (0, 0, s, 0) and
      (0, 0, 0, 1) gives its columns, the first three scaled by s. */
  lemma Apply4Axis(a: Mat4, s: real)
    ensures Apply4(a, Vec4(s, 0.0, 0.0, 0.0)) == Scale4(a.c0, s)
    ensures Apply4(a, Vec4(0.0, s, 0.0, 0.0)) == Scale4(a.c1, s)
    ensures Apply4(a, Vec4(0.0, 0.0, s, 0.0)) == Scale4(a.c2, s)
    ensures Apply4(a, Vec4(0.0, 0.0, 0.0, 1.0)) == a.c3
  {
    var z := Vec4(0.0, 0.0, 0.0, 0.0);
    assert Scale4(a.c0, 0.0) == z && Scale4(a.c1, 0.0) == z && Scale4(a.c2, 0.0) == z && Scale4(a.c3, 0.0) == z;
    assert Scale4(a.c3, 1.0) == a.c3;
  }

  function ScaleColumns(r: Mat3, s: real): Mat3 { Mat3(Scale(r.c0, s), Scale(r.c1, s), Scale(r.c2, s)) }

  /** A rotation's homogeneous matrix is the affine map without translation. */
  lemma HomogeneousIsAffine(r: Mat3)
    ensures Homogeneous(r) == AffineMatrix(r, Zero3)
  {
  }

  lemma ApplyAffine(r: Mat3, t: Vec3, p: Vec3)
    ensures Apply4(AffineMatrix(r, t), PointToHomogeneous(p)) == PointToHomogeneous(Add(Apply3(r, p), t))
    ensures Apply4(AffineMatrix(r, t), VectorToHomogeneous(p)) == VectorToHomogeneous(Apply3(r, p))
  {
  }

  /** Translating after rotating is the affine matrix of the pair. */
  lemma TranslateAfterRotate(r: Mat3, t: Vec3)
    ensures Mul4(AffineMatrix(Identity3, t), Homogeneous(r)) == AffineMatrix(r, t)
  {
    var h := Homogeneous(r);
    assert h.c0 == VectorToHomogeneous(r.c0) && h.c1 == VectorToHomogeneous(r.c1);
    assert h.c2 == VectorToHomogeneous(r.c2) && h.c3 == PointToHomogeneous(Zero3);
    ApplyAffine(Identity3, t, r.c0);
    ApplyAffine(Identity3, t, r.c1);
    ApplyAffine(Identity3, t, r.c2);
    ApplyAffine(Identity3, t, Zero3);
    ApplyIdentity3(r.c0);
    ApplyIdentity3(r.c1);
    ApplyIdentity3(r.c2);
    ApplyIdentity3(Zero3);
  }

  /** Scaling first multiplies the linear columns and keeps the translation. */
  lemma ScaleBeforeAffine(r: Mat3, t: Vec3, s: real)
    ensures Mul4(AffineMatrix(r, t), ScaleMatrix(s)) == AffineMatrix(ScaleColumns(r, s), t)
  {
    var d := ScaleMatrix(s);
    assert d.c0 == VectorToHomogeneous(Vec3(s, 0.0, 0.0));
    assert d.c1 == VectorToHomogeneous(Vec3(0.0, s, 0.0));
    assert d.c2 == VectorToHomogeneous(Vec3(0.0, 0.0, s));
    assert d.c3 == PointToHomogeneous(Zero3);
    ApplyAffine(r, t, Vec3(s, 0.0, 0.0));
    ApplyAffine(r, t, Vec3(0.0, s, 0.0));
    ApplyAffine(r, t, Vec3(0.0, 0.0, s));
    ApplyAffine(r, t, Zero3);
    ApplyAlongAxes(r, s);
    ApplyToZero(r);
  }

  lemma ApplyScaledInput(r: Mat3, s: real, p: Vec3)
    ensures Apply3(r, Scale(p, s)) == Add(Add(Scale(r.c0, p.x * s), Scale(r.c1, p.y * s)), Scale(r.c2, p.z * s))
  {
  }

  /** Scaling the columns of r by s is the same as scaling the input vector by s. */
  lemma ApplyScaleColumns(r: Mat3, s: real, p: Vec3)
    ensures Apply3(ScaleColumns(r, s), p) == Apply3(r, Scale(p, s))
  {
    var m := ScaleColumns(r, s);
    ScaleTwice(r.c0, s, p.x);
    ScaleTwice(r.c1, s, p.y);
    ScaleTwice(r.c2, s, p.z);
    ApplyScaledInput(r, s, p);
    assert Apply3(m, p) == Add(Add(Scale(m.c0, p.x), Scale(m.c1, p.y)), Scale(m.c2, p.z));
  }

  /** Point3::to_homogeneous appends w = 1; Vector3::to_homogeneous appends w = 0. */
  function PointToHomogeneous(p: Vec3): Vec4 { Vec4(p.x, p.y, p.z, 1.0) }
  function VectorToHomogeneous(v: Vec3): Vec4 { Vec4(v.x, v.y, v.z, 0.0) }

  /** Point3::from_homogeneous divides by w, and has no result when w is 0. */
  function PointFromHomogeneous(h: Vec4): Option<Vec3> {
    if h.w == 0.0 then None else Some(Vec3(h.x / h.w, h.y / h.w, h.z / h.w))
  }

  /** Vector3::from_homogeneous drops a w of 0, and has no result otherwise. */
  function VectorFromHomogeneous(h: Vec4): Option<Vec3> {
    if h.w == 0.0 then Some(Vec3(h.x, h.y, h.z)) else None
  }

  lemma HomogeneousRoundTrip(p: Vec3)
    ensures PointFromHomogeneous(PointToHomogeneous(p)) == Some(p)
    ensures VectorFromHomogeneous(VectorToHomogeneous(p)) == Some(p)
  {
  }
}
