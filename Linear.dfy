/**
 * The part of glm that the renderer uses: 3-vectors, homogeneous 4-vectors
 * and 4x4 matrices over the reals, with the matrix builders behind
 * glm::translate, glm::rotate (about the unit X and Y axes) and glm::scale.
 * A matrix is stored by columns, as glm::mat4 is; the fourth column holds
 * the translation.
 */
module Linear {
  import opened Trigonometry

  datatype Vec3 = Vec3(x: real, y: real, z: real)

  datatype Vec4 = Vec4(x: real, y: real, z: real, w: real)

  /** Column-major 4x4 matrix: c0..c3 are the columns. */
  datatype Mat4 = Mat4(c0: Vec4, c1: Vec4, c2: Vec4, c3: Vec4)

  const Zero3: Vec3 := Vec3(0.0, 0.0, 0.0)

  function Add(a: Vec3, b: Vec3): Vec3 {
    Vec3(a.x + b.x, a.y + b.y, a.z + b.z)
  }

  function Sub(a: Vec3, b: Vec3): Vec3 {
    Vec3(a.x - b.x, a.y - b.y, a.z - b.z)
  }

  /** k * v, as glm's scalar-times-vector operator. */
  function Times(k: real, v: Vec3): Vec3 {
    Vec3(k * v.x, k * v.y, k * v.z)
  }

  /** Component-wise product, which is what a scale matrix does to a point. */
  function Hadamard(a: Vec3, b: Vec3): Vec3 {
    Vec3(a.x * b.x, a.y * b.y, a.z * b.z)
  }

  function Dot(a: Vec3, b: Vec3): real {
    a.x * b.x + a.y * b.y + a.z * b.z
  }

  /** The homogeneous form of a point (w = 1). */
  function Point(p: Vec3): Vec4 {
    Vec4(p.x, p.y, p.z, 1.0)
  }

  function Dot4(a: Vec4, b: Vec4): real {
    a.x * b.x + a.y * b.y + a.z * b.z + a.w * b.w
  }

  /** Matrix times column vector: each entry is a row of m dotted with v. */
  function Transform(m: Mat4, v: Vec4): Vec4 {
    Vec4(Dot4(Vec4(m.c0.x, m.c1.x, m.c2.x, m.c3.x), v),
         Dot4(Vec4(m.c0.y, m.c1.y, m.c2.y, m.c3.y), v),
         Dot4(Vec4(m.c0.z, m.c1.z, m.c2.z, m.c3.z), v),
         Dot4(Vec4(m.c0.w, m.c1.w, m.c2.w, m.c3.w), v))
  }

  /** Matrix product: column j of a * b is a applied to column j of b. */
  function Mul(a: Mat4, b: Mat4): Mat4 {
    Mat4(Transform(a, b.c0), Transform(a, b.c1), Transform(a, b.c2), Transform(a, b.c3))
  }

  /** glm::mat4(1.0f). */
  const Identity: Mat4 :=
    Mat4(Vec4(1.0, 0.0, 0.0, 0.0), Vec4(0.0, 1.0, 0.0, 0.0),
         Vec4(0.0, 0.0, 1.0, 0.0), Vec4(0.0, 0.0, 0.0, 1.0))

  /** The matrix glm::translate multiplies by. */
  function Translation(t: Vec3): Mat4 {
    Mat4(Vec4(1.0, 0.0, 0.0, 0.0), Vec4(0.0, 1.0, 0.0, 0.0),
         Vec4(0.0, 0.0, 1.0, 0.0), Vec4(t.x, t.y, t.z, 1.0))
  }

  /** The matrix glm::scale multiplies by. */
  function Scaling(s: Vec3): Mat4 {
    Mat4(Vec4(s.x, 0.0, 0.0, 0.0), Vec4(0.0, s.y, 0.0, 0.0),
         Vec4(0.0, 0.0, s.z, 0.0), Vec4(0.0, 0.0, 0.0, 1.0))
  }

  /**
   * The matrix glm::rotate builds for the axis (1, 0, 0), given the cosine c
   * and sine s of the angle.
   */
  function RotationX(c: real, s: real): Mat4 {
    Mat4(Vec4(1.0, 0.0, 0.0, 0.0), Vec4(0.0, c, s, 0.0),
         Vec4(0.0, -s, c, 0.0), Vec4(0.0, 0.0, 0.0, 1.0))
  }

  /**
   * The matrix glm::rotate builds for the axis (0, 1, 0), given the cosine c
   * and sine s of the angle.
   */
  function RotationY(c: real, s: real): Mat4 {
    Mat4(Vec4(c, 0.0, -s, 0.0), Vec4(0.0, 1.0, 0.0, 0.0),
         Vec4(s, 0.0, c, 0.0), Vec4(0.0, 0.0, 0.0, 1.0))
  }

  /** A column times a scalar, as glm's vec4 * float. */
  function Scaled4(v: Vec4, k: real): Vec4 {
    Vec4(v.x * k, v.y * k, v.z * k, v.w * k)
  }

  function Add4(a: Vec4, b: Vec4): Vec4 {
    Vec4(a.x + b.x, a.y + b.y, a.z + b.z, a.w + b.w)
  }

  /**
   * glm::translate(m, t), computed as glm does: only the last column
   * changes, to m[0] t.x + m[1] t.y + m[2] t.z + m[3].
   */
  function Translate(m: Mat4, t: Vec3): Mat4 {
    Mat4(m.c0, m.c1, m.c2, Add4(Add4(Add4(Scaled4(m.c0, t.x), Scaled4(m.c1, t.y)), Scaled4(m.c2, t.z)), m.c3))
  }

  /** glm::scale(m, s): the first three columns are multiplied by s.x, s.y, s.z. */
  function Scale(m: Mat4, s: Vec3): Mat4 {
    Mat4(Scaled4(m.c0, s.x), Scaled4(m.c1, s.y), Scaled4(m.c2, s.z), m.c3)
  }

  /**
   * glm::rotate(m, angle, vec3(1, 0, 0)), angle in radians: columns 1 and 2
   * are mixed by the cosine and sine (the entries of glm's rotation that
   * are zero for this axis are left out).
   */
  function RotateX(tr: Trig, m: Mat4, angle: real): Mat4 {
    var c, s := tr.cos(angle), tr.sin(angle);
    Mat4(m.c0, Add4(Scaled4(m.c1, c), Scaled4(m.c2, s)), Add4(Scaled4(m.c1, -s), Scaled4(m.c2, c)), m.c3)
  }

  /** glm::rotate(m, angle, vec3(0, 1, 0)), angle in radians: columns 0 and 2 are mixed. */
  function RotateY(tr: Trig, m: Mat4, angle: real): Mat4 {
    var c, s := tr.cos(angle), tr.sin(angle);
    Mat4(Add4(Scaled4(m.c0, c), Scaled4(m.c2, -s)), m.c1, Add4(Scaled4(m.c0, s), Scaled4(m.c2, c)), m.c3)
  }

  /** The sum over r_i * b_ji * v_j, grouped by the columns j of b. */
  function GroupedByColumn(r: Vec4, b: Mat4, v: Vec4): real {
    (r.x * b.c0.x + r.y * b.c0.y + r.z * b.c0.z + r.w * b.c0.w) * v.x
    + (r.x * b.c1.x + r.y * b.c1.y + r.z * b.c1.z + r.w * b.c1.w) * v.y
    + (r.x * b.c2.x + r.y * b.c2.y + r.z * b.c2.z + r.w * b.c2.w) * v.z
    + (r.x * b.c3.x + r.y * b.c3.y + r.z * b.c3.z + r.w * b.c3.w) * v.w
  }

  /** The same sum, grouped by the entries i of r. */
  function GroupedByRow(r: Vec4, b: Mat4, v: Vec4): real {
    r.x * (b.c0.x * v.x + b.c1.x * v.y + b.c2.x * v.z + b.c3.x * v.w)
    + r.y * (b.c0.y * v.x + b.c1.y * v.y + b.c2.y * v.z + b.c3.y * v.w)
    + r.z * (b.c0.z * v.x + b.c1.z * v.y + b.c2.z * v.z + b.c3.z * v.w)
    + r.w * (b.c0.w * v.x + b.c1.w * v.y + b.c2.w * v.z + b.c3.w * v.w)
  }

  lemma RegroupSum(r: Vec4, b: Mat4, v: Vec4)
    ensures GroupedByColumn(r, b, v) == GroupedByRow(r, b, v)
  {
  }

  lemma RowOfProductExpands(r: Vec4, b: Mat4, v: Vec4)
    ensures Dot4(Vec4(Dot4(r, b.c0), Dot4(r, b.c1), Dot4(r, b.c2), Dot4(r, b.c3)), v)
         == GroupedByColumn(r, b, v)
  {
  }

  lemma RowOfImageExpands(r: Vec4, b: Mat4, v: Vec4)
    ensures Dot4(r, Transform(b, v)) == GroupedByRow(r, b, v)
  {
  }

  /** Row r of a * b, applied to v, is row r of a applied to b * v. */
  lemma RowThroughProduct(r: Vec4, b: Mat4, v: Vec4)
    ensures Dot4(Vec4(Dot4(r, b.c0), Dot4(r, b.c1), Dot4(r, b.c2), Dot4(r, b.c3)), v)
         == Dot4(r, Transform(b, v))
  {
    RowOfProductExpands(r, b, v);
    RegroupSum(r, b, v);
    RowOfImageExpands(r, b, v);
  }

  /** Applying a product is applying its factors right to left. */
  lemma MulTransform(a: Mat4, b: Mat4, v: Vec4)
    ensures Transform(Mul(a, b), v) == Transform(a, Transform(b, v))
  {
    RowThroughProduct(Vec4(a.c0.x, a.c1.x, a.c2.x, a.c3.x), b, v);
    RowThroughProduct(Vec4(a.c0.y, a.c1.y, a.c2.y, a.c3.y), b, v);
    RowThroughProduct(Vec4(a.c0.z, a.c1.z, a.c2.z, a.c3.z), b, v);
    RowThroughProduct(Vec4(a.c0.w, a.c1.w, a.c2.w, a.c3.w), b, v);
  }

  /** A translation moves every point by t. */
  lemma TranslationApply(t: Vec3, p: Vec3)
    ensures Transform(Translation(t), Point(p)) == Point(Add(p, t))
  {
  }

  /** A scale matrix multiplies every point component-wise by s. */
  lemma ScalingApply(s: Vec3, p: Vec3)
    ensures Transform(Scaling(s), Point(p)) == Point(Hadamard(s, p))
  {
  }

  /** Where the rotation about X sends a point. */
  lemma RotationXApply(c: real, s: real, p: Vec3)
    ensures Transform(RotationX(c, s), Point(p)) == Point(Vec3(p.x, c * p.y - s * p.z, s * p.y + c * p.z))
  {
  }

  /** Each of glm's shortcuts is a right-multiplication by the matching matrix. */
  lemma TranslateIsProduct(m: Mat4, t: Vec3)
    ensures Translate(m, t) == Mul(m, Translation(t))
  {
  }

  lemma ScaleIsProduct(m: Mat4, s: Vec3)
    ensures Scale(m, s) == Mul(m, Scaling(s))
  {
  }

  lemma RotateXIsProduct(tr: Trig, m: Mat4, angle: real)
    ensures RotateX(tr, m, angle) == Mul(m, RotationX(tr.cos(angle), tr.sin(angle)))
  {
  }

  lemma RotateYIsProduct(tr: Trig, m: Mat4, angle: real)
    ensures RotateY(tr, m, angle) == Mul(m, RotationY(tr.cos(angle), tr.sin(angle)))
  {
  }

  /** Translating by zero, scaling by one and turning by a zero angle build the identity. */
  lemma NeutralBuilders()
    ensures Translation(Zero3) == Identity
    ensures Scaling(Vec3(1.0, 1.0, 1.0)) == Identity
    ensures RotationX(1.0, 0.0) == Identity && RotationY(1.0, 0.0) == Identity
  {
  }

  /** A zero angle turns nothing. */
  lemma RotateByZero(tr: Trig, m: Mat4)
    requires Lawful(tr)
    ensures RotateX(tr, m, 0.0) == m && RotateY(tr, m, 0.0) == m
  {
  }

  /** Applied to the identity, glm's translate and scale give the plain matrices. */
  lemma StepsOnIdentity(t: Vec3, s: Vec3)
    ensures Translate(Identity, t) == Translation(t)
    ensures Scale(Identity, s) == Scaling(s)
  {
  }

  /** Scaling by one changes nothing. */
  lemma ScaleByOne(m: Mat4)
    ensures Scale(m, Vec3(1.0, 1.0, 1.0)) == m
  {
  }

  /** Translating a translation adds the offsets. */
  lemma TranslateTranslation(a: Vec3, b: Vec3)
    ensures Translate(Translation(a), b) == Translation(Add(a, b))
  {
    var m := Translate(Translation(a), b);
    assert m.c3 == Vec4(b.x + a.x, b.y + a.y, b.z + a.z, 1.0);
  }

  /** Translating a matrix moves the point it is applied to. */
  lemma TranslateApply(m: Mat4, t: Vec3, p: Vec3)
    ensures Transform(Translate(m, t), Point(p)) == Transform(m, Point(Add(p, t)))
  {
    TranslateIsProduct(m, t);
    MulTransform(m, Translation(t), Point(p));
    TranslationApply(t, p);
  }

  /** Scaling a matrix scales the point it is applied to. */
  lemma ScaleApply(m: Mat4, s: Vec3, p: Vec3)
    ensures Transform(Scale(m, s), Point(p)) == Transform(m, Point(Hadamard(s, p)))
  {
    ScaleIsProduct(m, s);
    MulTransform(m, Scaling(s), Point(p));
    ScalingApply(s, p);
  }

  /** Rotating a matrix about X leaves the image of the origin where it was. */
  lemma RotateXOrigin(tr: Trig, m: Mat4, angle: real)
    ensures Transform(RotateX(tr, m, angle), Point(Zero3)) == Transform(m, Point(Zero3))
  {
  }

  /** Rotating a matrix about Y leaves the image of the origin where it was. */
  lemma RotateYOrigin(tr: Trig, m: Mat4, angle: real)
    ensures Transform(RotateY(tr, m, angle), Point(Zero3)) == Transform(m, Point(Zero3))
  {
  }

  /** (c y - s z)^2 + (s y + c z)^2 == (c^2 + s^2) (y^2 + z^2). */
  lemma PlaneRotationNorm(c: real, s: real, y: real, z: real)
    ensures (c * y - s * z) * (c * y - s * z) + (s * y + c * z) * (s * y + c * z)
         == (c * c + s * s) * (y * y + z * z)
  {
  }

  /** A unit-circle rotation about X keeps the length of every point. */
  lemma RotationXRigid(c: real, s: real, p: Vec3)
    requires c * c + s * s == 1.0
    ensures var q := Transform(RotationX(c, s), Point(p));
            q.x * q.x + q.y * q.y + q.z * q.z == Dot(p, p)
  {
    RotationXApply(c, s, p);
    PlaneRotationNorm(c, s, p.y, p.z);
  }
}
