/**
 * Fixed-size vector, quaternion and 4x4 matrix algebra used by the skeleton
 * and the visualization: the part of numpy and transforms3d that the model
 * states exactly (sums, products, transposes, affine composition with unit
 * scale), plus a record of the library calls it treats as given (square
 * root, quaternion-to-matrix conversion, trigonometry, Euler constants).
 */
module Geometry {

  /** A position or direction (numpy array of shape (3,)). */
  datatype Vec3 = Vec3(x: real, y: real, z: real)

  /** A quaternion in transforms3d's (w, x, y, z) order. */
  datatype Quat = Quat(w: real, x: real, y: real, z: real)

  /** One row of a 4x4 matrix. */
  datatype Row4 = Row4(c0: real, c1: real, c2: real, c3: real)

  /** A 3x3 matrix given by its rows. */
  datatype Mat3 = Mat3(r0: Vec3, r1: Vec3, r2: Vec3)

  /** A 4x4 matrix given by its rows. */
  datatype Mat4 = Mat4(r0: Row4, r1: Row4, r2: Row4, r3: Row4)

  const ORIGIN := Vec3(0.0, 0.0, 0.0)
  const IDENTITY_QUAT := Quat(1.0, 0.0, 0.0, 0.0)
  const IDENTITY3 := Mat3(Vec3(1.0, 0.0, 0.0), Vec3(0.0, 1.0, 0.0), Vec3(0.0, 0.0, 1.0))
  const IDENTITY4 := Mat4(Row4(1.0, 0.0, 0.0, 0.0), Row4(0.0, 1.0, 0.0, 0.0),
                          Row4(0.0, 0.0, 1.0, 0.0), Row4(0.0, 0.0, 0.0, 1.0))
  const ZERO4 := Mat4(Row4(0.0, 0.0, 0.0, 0.0), Row4(0.0, 0.0, 0.0, 0.0),
                      Row4(0.0, 0.0, 0.0, 0.0), Row4(0.0, 0.0, 0.0, 0.0))

  // ----- vectors -----

  function Add(a: Vec3, b: Vec3): Vec3 { Vec3(a.x + b.x, a.y + b.y, a.z + b.z) }

  function Sub(a: Vec3, b: Vec3): Vec3 { Vec3(a.x - b.x, a.y - b.y, a.z - b.z) }

  function Scale(a: Vec3, s: real): Vec3 { Vec3(a.x * s, a.y * s, a.z * s) }

  /** `(a + b) / 2` */
  function Midpoint(a: Vec3, b: Vec3): Vec3
  {
    Vec3((a.x + b.x) / 2.0, (a.y + b.y) / 2.0, (a.z + b.z) / 2.0)
  }

  /** Squared Euclidean length, the argument numpy's norm takes the root of. */
  function LengthSq(v: Vec3): (r: real)
    ensures r >= 0.0
  {
    v.x * v.x + v.y * v.y + v.z * v.z
  }

  /** The midpoint is equidistant from both ends: each half of the edge is half its vector. */
  lemma MidpointHalvesEdge(a: Vec3, b: Vec3)
    ensures Sub(Midpoint(a, b), a) == Sub(b, Midpoint(a, b)) == Scale(Sub(b, a), 0.5)
  {
  }

  // ----- quaternions -----

  function QAdd(p: Quat, q: Quat): Quat { Quat(p.w + q.w, p.x + q.x, p.y + q.y, p.z + q.z) }

  function QScale(q: Quat, s: real): Quat { Quat(q.w * s, q.x * s, q.y * s, q.z * s) }

  function Dot(p: Quat, q: Quat): real { p.w * q.w + p.x * q.x + p.y * q.y + p.z * q.z }

  function QNormSq(q: Quat): (r: real)
    ensures r >= 0.0
  {
    Dot(q, q)
  }

  /** Scaling a quaternion by s scales its squared norm by s * s. */
  lemma QNormSqScale(q: Quat, s: real)
    ensures QNormSq(QScale(q, s)) == s * s * QNormSq(q)
  {
  }

  /** The Hamilton product, as transforms3d's qmult computes it. */
  function QMult(p: Quat, q: Quat): Quat
  {
    Quat(p.w * q.w - p.x * q.x - p.y * q.y - p.z * q.z,
         p.w * q.x + p.x * q.w + p.y * q.z - p.z * q.y,
         p.w * q.y + p.y * q.w + p.z * q.x - p.x * q.z,
         p.w * q.z + p.z * q.w + p.x * q.y - p.y * q.x)
  }

  /** The identity quaternion is neutral for the Hamilton product on both sides. */
  lemma QMultIdentity(q: Quat)
    ensures QMult(IDENTITY_QUAT, q) == q && QMult(q, IDENTITY_QUAT) == q
  {
  }

  // ----- matrices -----

  /** Matrix times column vector. */
  function Apply3(m: Mat3, v: Vec3): Vec3
  {
    Vec3(m.r0.x * v.x + m.r0.y * v.y + m.r0.z * v.z,
         m.r1.x * v.x + m.r1.y * v.y + m.r1.z * v.z,
         m.r2.x * v.x + m.r2.y * v.y + m.r2.z * v.z)
  }

  /**
   * transforms3d's affines.compose(t, r, ones(3)): the affine matrix whose
   * upper-left block is r and whose last column holds t.
   */
  function Compose(t: Vec3, r: Mat3): Mat4
  {
    Mat4(Row4(r.r0.x, r.r0.y, r.r0.z, t.x),
         Row4(r.r1.x, r.r1.y, r.r1.z, t.y),
         Row4(r.r2.x, r.r2.y, r.r2.z, t.z),
         Row4(0.0, 0.0, 0.0, 1.0))
  }

  /** A pure translation: compose(t, eye(3), ones(3)). */
  function Translation(t: Vec3): Mat4 { Compose(t, IDENTITY3) }

  /** Row vector times matrix; the building block of Mul. */
  function RowTimes(r: Row4, m: Mat4): Row4
  {
    Row4(r.c0 * m.r0.c0 + r.c1 * m.r1.c0 + r.c2 * m.r2.c0 + r.c3 * m.r3.c0,
         r.c0 * m.r0.c1 + r.c1 * m.r1.c1 + r.c2 * m.r2.c1 + r.c3 * m.r3.c1,
         r.c0 * m.r0.c2 + r.c1 * m.r1.c2 + r.c2 * m.r2.c2 + r.c3 * m.r3.c2,
         r.c0 * m.r0.c3 + r.c1 * m.r1.c3 + r.c2 * m.r2.c3 + r.c3 * m.r3.c3)
  }

  /** numpy's matmul on 4x4 matrices. */
  function Mul(a: Mat4, b: Mat4): Mat4
  {
    Mat4(RowTimes(a.r0, b), RowTimes(a.r1, b), RowTimes(a.r2, b), RowTimes(a.r3, b))
  }

  function Transpose(m: Mat4): Mat4
  {
    Mat4(Row4(m.r0.c0, m.r1.c0, m.r2.c0, m.r3.c0),
         Row4(m.r0.c1, m.r1.c1, m.r2.c1, m.r3.c1),
         Row4(m.r0.c2, m.r1.c2, m.r2.c2, m.r3.c2),
         Row4(m.r0.c3, m.r1.c3, m.r2.c3, m.r3.c3))
  }

  /** Translating by a and then by b is translating by a + b. */
  lemma TranslationsCompose(a: Vec3, b: Vec3)
    ensures Mul(Translation(a), Translation(b)) == Translation(Add(a, b))
  {
  }

  /** A translation by a and the one by -a are inverse to each other, in both orders. */
  lemma TranslationInverse(a: Vec3)
    ensures Mul(Translation(a), Translation(Scale(a, -1.0))) == IDENTITY4
    ensures Mul(Translation(Scale(a, -1.0)), Translation(a)) == IDENTITY4
  {
    TranslationsCompose(a, Scale(a, -1.0));
    TranslationsCompose(Scale(a, -1.0), a);
  }

  /** Rotating after translating by v: the rotation block is kept and the translation becomes r v. */
  lemma RotateAfterTranslate(r: Mat3, v: Vec3)
    ensures Mul(Compose(ORIGIN, r), Translation(v)) == Compose(Apply3(r, v), r)
  {
  }

  // ----- library calls taken as given -----

  /**
   * The numeric library calls the source makes without defining them:
   * the square root behind numpy's norm, transforms3d's quat2mat, numpy's
   * arccos and sin (inside slerp), and the three constant quaternions
   * euler2quat(0, 0, pi/2), euler2quat(0, pi/2, 0) and euler2quat(0, 0, -pi/2)
   * in 'sxyz' axes.
   */
  datatype MathLib = MathLib(
    sqrt: real -> real,
    quatToMat: Quat -> Mat3,
    arccos: real -> real,
    sin: real -> real,
    zQuarterTurn: Quat,
    yQuarterTurn: Quat,
    zNegQuarterTurn: Quat)

  /**
   * The facts about those calls the model relies on: a square root is never
   * negative and is zero exactly at zero, quat2mat maps the identity
   * quaternion to the identity matrix, and sin(0) = 0.
   */
  ghost predicate LibraryFacts(lib: MathLib)
  {
    && (forall v :: 0.0 <= lib.sqrt(v))
    && (forall v :: 0.0 < v ==> 0.0 < lib.sqrt(v))
    && lib.sqrt(0.0) == 0.0
    && lib.quatToMat(IDENTITY_QUAT) == IDENTITY3
    && lib.sin(0.0) == 0.0
  }

  type Numerics = lib: MathLib | LibraryFacts(lib)
    witness MathLib(v => if 0.0 < v then v else 0.0, q => IDENTITY3, v => 0.0, v => 0.0,
                    IDENTITY_QUAT, IDENTITY_QUAT, IDENTITY_QUAT)
}
