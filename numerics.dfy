/**
 * The slice of System.Numerics the sandbox relies on, over `real`:
 * 3- and 4-component vectors, row-major 4x4 matrices used with row vectors
 * (translation in M41..M43), and the library builders that need trigonometry
 * or square roots, which are taken as parameters (`MathLib`).
 */
module Numerics {

  datatype Vec2 = Vec2(x: real, y: real)
  datatype Vec3 = Vec3(x: real, y: real, z: real)
  datatype Vec4 = Vec4(x: real, y: real, z: real, w: real)

  const Zero3: Vec3 := Vec3(0.0, 0.0, 0.0)

  function Add(a: Vec3, b: Vec3): Vec3 { Vec3(a.x + b.x, a.y + b.y, a.z + b.z) }
  function Sub(a: Vec3, b: Vec3): Vec3 { Vec3(a.x - b.x, a.y - b.y, a.z - b.z) }
  function Neg(a: Vec3): Vec3 { Vec3(-a.x, -a.y, -a.z) }
  /** `a * k` for a vector and a scalar. */
  function Scale(a: Vec3, k: real): Vec3 { Vec3(a.x * k, a.y * k, a.z * k) }
  /** `a / k`, component by component. */
  function Div(a: Vec3, k: real): Vec3
    requires k != 0.0
  {
    Vec3(a.x / k, a.y / k, a.z / k)
  }
  function Dot(a: Vec3, b: Vec3): real { a.x * b.x + a.y * b.y + a.z * b.z }
  function Cross(a: Vec3, b: Vec3): Vec3
  {
    Vec3(a.y * b.z - a.z * b.y, a.z * b.x - a.x * b.z, a.x * b.y - a.y * b.x)
  }
  function Xyz(v: Vec4): Vec3 { Vec3(v.x, v.y, v.z) }

  function Min(a: real, b: real): real { if a <= b then a else b }
  function Max(a: real, b: real): real { if a >= b then a else b }

  /** The cross product distributes over a difference on the left. */
  lemma CrossSubLeft(a: Vec3, p: Vec3, f: Vec3)
    ensures Cross(Sub(a, p), f) == Sub(Cross(a, f), Cross(p, f))
  {
    assert (a.y - p.y) * f.z == a.y * f.z - p.y * f.z && (a.z - p.z) * f.y == a.z * f.y - p.z * f.y;
    assert (a.z - p.z) * f.x == a.z * f.x - p.z * f.x && (a.x - p.x) * f.z == a.x * f.z - p.x * f.z;
    assert (a.x - p.x) * f.y == a.x * f.y - p.x * f.y && (a.y - p.y) * f.x == a.y * f.x - p.y * f.x;
  }

  /** The cross product distributes over a sum on the right. */
  lemma CrossAddRight(p: Vec3, a: Vec3, b: Vec3)
    ensures Cross(p, Add(a, b)) == Add(Cross(p, a), Cross(p, b))
  {
    assert p.y * (a.z + b.z) == p.y * a.z + p.y * b.z && p.z * (a.y + b.y) == p.z * a.y + p.z * b.y;
    assert p.z * (a.x + b.x) == p.z * a.x + p.z * b.x && p.x * (a.z + b.z) == p.x * a.z + p.x * b.z;
    assert p.x * (a.y + b.y) == p.x * a.y + p.x * b.y && p.y * (a.x + b.x) == p.y * a.x + p.y * b.x;
  }

  /** The cross product is orthogonal to both of its operands. */
  lemma CrossOrthogonal(a: Vec3, b: Vec3)
    ensures Dot(Cross(a, b), a) == 0.0 && Dot(Cross(a, b), b) == 0.0
  {
    var c := Cross(a, b);
    calc {
      Dot(c, a);
      (a.y * b.z - a.z * b.y) * a.x + (a.z * b.x - a.x * b.z) * a.y + (a.x * b.y - a.y * b.x) * a.z;
      a.x * a.y * b.z - a.x * a.z * b.y + a.y * a.z * b.x - a.x * a.y * b.z + a.x * a.z * b.y - a.y * a.z * b.x;
      0.0;
    }
    calc {
      Dot(c, b);
      (a.y * b.z - a.z * b.y) * b.x + (a.z * b.x - a.x * b.z) * b.y + (a.x * b.y - a.y * b.x) * b.z;
      a.y * b.x * b.z - a.z * b.x * b.y + a.z * b.x * b.y - a.x * b.y * b.z + a.x * b.y * b.z - a.y * b.x * b.z;
      0.0;
    }
  }

  /** Matrix4x4: row-major, used with row vectors (`v * M`). */
  datatype Mat4 = Mat4(
    m11: real, m12: real, m13: real, m14: real,
    m21: real, m22: real, m23: real, m24: real,
    m31: real, m32: real, m33: real, m34: real,
    m41: real, m42: real, m43: real, m44: real)

  /** The all-zero matrix: the value of a Matrix4x4 field nobody assigned. */
  const ZeroMatrix: Mat4 := Mat4(0.0, 0.0, 0.0, 0.0, 0.0, 0.0, 0.0, 0.0,
                                 0.0, 0.0, 0.0, 0.0, 0.0, 0.0, 0.0, 0.0)
  const Identity: Mat4 := Mat4(1.0, 0.0, 0.0, 0.0, 0.0, 1.0, 0.0, 0.0,
                               0.0, 0.0, 1.0, 0.0, 0.0, 0.0, 0.0, 1.0)

  function Mul(a: Mat4, b: Mat4): Mat4
  {
    Mat4(
      a.m11 * b.m11 + a.m12 * b.m21 + a.m13 * b.m31 + a.m14 * b.m41,
      a.m11 * b.m12 + a.m12 * b.m22 + a.m13 * b.m32 + a.m14 * b.m42,
      a.m11 * b.m13 + a.m12 * b.m23 + a.m13 * b.m33 + a.m14 * b.m43,
      a.m11 * b.m14 + a.m12 * b.m24 + a.m13 * b.m34 + a.m14 * b.m44,
      a.m21 * b.m11 + a.m22 * b.m21 + a.m23 * b.m31 + a.m24 * b.m41,
      a.m21 * b.m12 + a.m22 * b.m22 + a.m23 * b.m32 + a.m24 * b.m42,
      a.m21 * b.m13 + a.m22 * b.m23 + a.m23 * b.m33 + a.m24 * b.m43,
      a.m21 * b.m14 + a.m22 * b.m24 + a.m23 * b.m34 + a.m24 * b.m44,
      a.m31 * b.m11 + a.m32 * b.m21 + a.m33 * b.m31 + a.m34 * b.m41,
      a.m31 * b.m12 + a.m32 * b.m22 + a.m33 * b.m32 + a.m34 * b.m42,
      a.m31 * b.m13 + a.m32 * b.m23 + a.m33 * b.m33 + a.m34 * b.m43,
      a.m31 * b.m14 + a.m32 * b.m24 + a.m33 * b.m34 + a.m34 * b.m44,
      a.m41 * b.m11 + a.m42 * b.m21 + a.m43 * b.m31 + a.m44 * b.m41,
      a.m41 * b.m12 + a.m42 * b.m22 + a.m43 * b.m32 + a.m44 * b.m42,
      a.m41 * b.m13 + a.m42 * b.m23 + a.m43 * b.m33 + a.m44 * b.m43,
      a.m41 * b.m14 + a.m42 * b.m24 + a.m43 * b.m34 + a.m44 * b.m44)
  }

  /** Matrix4x4.CreateTranslation. */
  function Translation(v: Vec3): Mat4
  {
    Identity.(m41 := v.x, m42 := v.y, m43 := v.z)
  }

  /** Matrix4x4.CreateScale. */
  function ScaleMatrix(v: Vec3): Mat4
  {
    Identity.(m11 := v.x, m22 := v.y, m33 := v.z)
  }

  /** diag(a, b, c, d) with zeros elsewhere. */
  function Diagonal(a: real, b: real, c: real, d: real): Mat4
  {
    ZeroMatrix.(m11 := a, m22 := b, m33 := c, m44 := d)
  }

  /** `a / b`, with a zero divisor giving 0 instead of an infinity or NaN. */
  function Quotient(a: real, b: real): real
  {
    if b == 0.0 then 0.0 else a / b
  }

  /**
   * Matrix4x4.CreateOrthographicOffCenter(left, right, bottom, top, near, far):
   * scale the box to [−1, 1] × [−1, 1] and the depth range to [0, 1], with
   * the view looking down −Z.
   */
  function OrthographicOffCenter(left: real, right: real, bottom: real, top: real, near: real, far: real): Mat4
  {
    Diagonal(Quotient(2.0, right - left), Quotient(2.0, top - bottom), Quotient(1.0, near - far), 1.0)
      .(m41 := Quotient(left + right, left - right),
        m42 := Quotient(top + bottom, bottom - top),
        m43 := Quotient(near, near - far))
  }

  /**
   * A proper box is mapped onto the canonical one: its near lower-left
   * corner (at depth −near) goes to (−1, −1, 0) and its far upper-right
   * corner to (1, 1, 1).
   */
  lemma OrthographicMapsBox(left: real, right: real, bottom: real, top: real, near: real, far: real)
    requires left != right && bottom != top && near != far
    ensures var m := OrthographicOffCenter(left, right, bottom, top, near, far);
      && Transform4(Vec4(left, bottom, -near, 1.0), m) == Vec4(-1.0, -1.0, 0.0, 1.0)
      && Transform4(Vec4(right, top, -far, 1.0), m) == Vec4(1.0, 1.0, 1.0, 1.0)
  {
    var m := OrthographicOffCenter(left, right, bottom, top, near, far);
    SpanEnds(left, right);
    SpanEnds(bottom, top);
    assert m.m42 == (bottom + top) / (bottom - top);
    var d := near - far;
    assert -far * (1.0 / d) + near / d == 1.0 by {
      assert -far * (1.0 / d) == -far / d;
    }
  }

  /** The scale 2/(hi − lo) and offset (lo + hi)/(lo − hi) send `lo` to −1 and `hi` to 1. */
  lemma SpanEnds(lo: real, hi: real)
    requires lo != hi
    ensures lo * (2.0 / (hi - lo)) + (lo + hi) / (lo - hi) == -1.0
    ensures hi * (2.0 / (hi - lo)) + (lo + hi) / (lo - hi) == 1.0
  {
    var w := hi - lo;
    assert (lo + hi) / (lo - hi) == -(lo + hi) / w;
    assert lo * (2.0 / w) == 2.0 * lo / w;
    assert hi * (2.0 / w) == 2.0 * hi / w;
    assert 2.0 * lo / w - (lo + hi) / w == (lo - hi) / w;
    assert 2.0 * hi / w - (lo + hi) / w == (hi - lo) / w;
  }

  /** The translation row M41..M43. */
  function TranslationOf(m: Mat4): Vec3 { Vec3(m.m41, m.m42, m.m43) }

  /** `m` with M41..M43 replaced by `v`, every other entry kept. */
  function WithTranslation(m: Mat4, v: Vec3): Mat4 { m.(m41 := v.x, m42 := v.y, m43 := v.z) }

  /** Vector4.Transform(v, m): the row vector `v * m`. */
  function Transform4(v: Vec4, m: Mat4): Vec4
  {
    Vec4(v.x * m.m11 + v.y * m.m21 + v.z * m.m31 + v.w * m.m41,
         v.x * m.m12 + v.y * m.m22 + v.z * m.m32 + v.w * m.m42,
         v.x * m.m13 + v.y * m.m23 + v.z * m.m33 + v.w * m.m43,
         v.x * m.m14 + v.y * m.m24 + v.z * m.m34 + v.w * m.m44)
  }

  /** Vector3.Transform(v, m): `v` as a position (w = 1), so the translation row is added. */
  function Transform3(v: Vec3, m: Mat4): Vec3
  {
    Vec3(v.x * m.m11 + v.y * m.m21 + v.z * m.m31 + m.m41,
         v.x * m.m12 + v.y * m.m22 + v.z * m.m32 + m.m42,
         v.x * m.m13 + v.y * m.m23 + v.z * m.m33 + m.m43)
  }

  /** A 3x3 rotation block, as produced by the trigonometric builders. */
  datatype Mat3 = Mat3(
    r11: real, r12: real, r13: real,
    r21: real, r22: real, r23: real,
    r31: real, r32: real, r33: real)

  /**
   * The Matrix4x4 that CreateFromYawPitchRoll and CreateRotationZ return for a
   * rotation block: no translation, last column and last row (0, 0, 0, 1).
   */
  function Rotation(b: Mat3): (m: Mat4)
    ensures TranslationOf(m) == Zero3 && m.m14 == m.m24 == m.m34 == 0.0 && m.m44 == 1.0
  {
    Mat4(b.r11, b.r12, b.r13, 0.0,
         b.r21, b.r22, b.r23, 0.0,
         b.r31, b.r32, b.r33, 0.0,
         0.0, 0.0, 0.0, 1.0)
  }

  /**
   * Left-multiplying by a matrix whose last row is (0, 0, 0, 1) keeps the
   * translation row of the right operand.
   */
  lemma MulKeepsTranslationRow(r: Mat4, t: Mat4)
    requires r.m41 == r.m42 == r.m43 == 0.0 && r.m44 == 1.0
    ensures TranslationOf(Mul(r, t)) == TranslationOf(t) && Mul(r, t).m44 == t.m44
  {
  }

  /** Transforming by a product is transforming by each factor in turn. */
  lemma {:induction false} Transform4Mul(v: Vec4, a: Mat4, b: Mat4)
    ensures Transform4(v, Mul(a, b)) == Transform4(Transform4(v, a), b)
  {
    Transform4MulX(v, a, b);
    Transform4MulY(v, a, b);
    Transform4MulZ(v, a, b);
    Transform4MulW(v, a, b);
  }

  lemma Transform4MulX(v: Vec4, a: Mat4, b: Mat4)
    ensures Transform4(v, Mul(a, b)).x == Transform4(Transform4(v, a), b).x
  {
    var m := Mul(a, b);
    MulColumn(v, a, Transform4(v, a), b.m11, b.m21, b.m31, b.m41, m.m11, m.m21, m.m31, m.m41);
  }

  lemma Transform4MulY(v: Vec4, a: Mat4, b: Mat4)
    ensures Transform4(v, Mul(a, b)).y == Transform4(Transform4(v, a), b).y
  {
    var m := Mul(a, b);
    MulColumn(v, a, Transform4(v, a), b.m12, b.m22, b.m32, b.m42, m.m12, m.m22, m.m32, m.m42);
  }

  lemma Transform4MulZ(v: Vec4, a: Mat4, b: Mat4)
    ensures Transform4(v, Mul(a, b)).z == Transform4(Transform4(v, a), b).z
  {
    var m := Mul(a, b);
    MulColumn(v, a, Transform4(v, a), b.m13, b.m23, b.m33, b.m43, m.m13, m.m23, m.m33, m.m43);
  }

  lemma Transform4MulW(v: Vec4, a: Mat4, b: Mat4)
    ensures Transform4(v, Mul(a, b)).w == Transform4(Transform4(v, a), b).w
  {
    var m := Mul(a, b);
    MulColumn(v, a, Transform4(v, a), b.m14, b.m24, b.m34, b.m44, m.m14, m.m24, m.m34, m.m44);
  }

  /**
   * One column of Transform4Mul: `v` times column `c` of `a * b` (whose
   * entries are `s`) equals `v * a` (that is `t`) times column `c` of `b`.
   */
  lemma MulColumn(v: Vec4, a: Mat4, t: Vec4, c1: real, c2: real, c3: real, c4: real,
                  s1: real, s2: real, s3: real, s4: real)
    requires t == Transform4(v, a)
    requires s1 == a.m11 * c1 + a.m12 * c2 + a.m13 * c3 + a.m14 * c4
    requires s2 == a.m21 * c1 + a.m22 * c2 + a.m23 * c3 + a.m24 * c4
    requires s3 == a.m31 * c1 + a.m32 * c2 + a.m33 * c3 + a.m34 * c4
    requires s4 == a.m41 * c1 + a.m42 * c2 + a.m43 * c3 + a.m44 * c4
    ensures v.x * s1 + v.y * s2 + v.z * s3 + v.w * s4 == t.x * c1 + t.y * c2 + t.z * c3 + t.w * c4
  {
    Distribute(v.x, s1, a.m11 * c1, a.m12 * c2, a.m13 * c3, a.m14 * c4);
    Distribute(v.y, s2, a.m21 * c1, a.m22 * c2, a.m23 * c3, a.m24 * c4);
    Distribute(v.z, s3, a.m31 * c1, a.m32 * c2, a.m33 * c3, a.m34 * c4);
    Distribute(v.w, s4, a.m41 * c1, a.m42 * c2, a.m43 * c3, a.m44 * c4);
    Distribute(c1, t.x, v.x * a.m11, v.y * a.m21, v.z * a.m31, v.w * a.m41);
    Distribute(c2, t.y, v.x * a.m12, v.y * a.m22, v.z * a.m32, v.w * a.m42);
    Distribute(c3, t.z, v.x * a.m13, v.y * a.m23, v.z * a.m33, v.w * a.m43);
    Distribute(c4, t.w, v.x * a.m14, v.y * a.m24, v.z * a.m34, v.w * a.m44);
  }

  lemma Distribute(x: real, s: real, p1: real, p2: real, p3: real, p4: real)
    requires s == p1 + p2 + p3 + p4
    ensures x * s == x * p1 + x * p2 + x * p3 + x * p4 && s * x == x * s
  {
  }

  /**
   * A single-precision quotient of two ints, as `(float)a / b` evaluates it:
   * division by zero gives an infinity or NaN.
   */
  datatype Float32 = Finite(value: real) | PositiveInfinity | NegativeInfinity | NaN

  function IntQuotient(a: int, b: int): (q: Float32)
    ensures q.Finite? <==> b != 0
    ensures q.Finite? ==> q.value * b as real == a as real
    ensures b == 0 ==> (q.PositiveInfinity? <==> a > 0) && (q.NegativeInfinity? <==> a < 0) && (q.NaN? <==> a == 0)
  {
    if b != 0 then Finite(a as real / b as real)
    else if a > 0 then PositiveInfinity
    else if a < 0 then NegativeInfinity
    else NaN
  }

  /** `q >= 0` in IEEE arithmetic: false for NaN and for negative infinity. */
  predicate AtLeastZero(q: Float32)
  {
    match q
    case Finite(r) => r >= 0.0
    case PositiveInfinity => true
    case NegativeInfinity => false
    case NaN => false
  }

  /**
   * The library routines that need trigonometry or square roots; the model
   * does not interpret them.
   */
  datatype MathLib = MathLib(
    yawPitchRoll: (real, real, real) -> Mat3,  // rotation block of CreateFromYawPitchRoll(yaw, pitch, roll)
    rotationZ: real -> Mat3,                   // rotation block of CreateRotationZ(angle)
    perspective: (real, Float32, real, real) -> Mat4,  // CreatePerspectiveFieldOfView(fov, aspect, near, far)
    sqrt: real -> real,
    normalize: Vec3 -> Vec3)

  /** Vector3.Distance. */
  function Distance(lib: MathLib, a: Vec3, b: Vec3): real
  {
    var d := Sub(a, b);
    lib.sqrt(Dot(d, d))
  }

  lemma DistanceSymmetric(lib: MathLib, a: Vec3, b: Vec3)
    ensures Distance(lib, a, b) == Distance(lib, b, a)
  {
    var d, e := Sub(a, b), Sub(b, a);
    assert e == Neg(d);
    assert Dot(d, d) == Dot(e, e);
  }
}
