/** Stand-in for the parts of glm the scene graph uses: 3- and 4-vectors of reals,
    4x4 real matrices stored column-major exactly as glm stores them (m[column][row]),
    matrix product, and the translate/rotate/scale factors that glm::translate,
    glm::rotate and glm::scale post-multiply onto a matrix. Floating point is
    replaced by real arithmetic. */
module Glm {

  datatype Vec3 = Vec3(x: real, y: real, z: real) {
    /** glm's component-wise `+`. */
    function Plus(o: Vec3): Vec3 { Vec3(x + o.x, y + o.y, z + o.z) }
    /** glm's component-wise `*`. */
    function Times(o: Vec3): Vec3 { Vec3(x * o.x, y * o.y, z * o.z) }
    /** glm's unary `-`. */
    function Neg(): Vec3 { Vec3(-x, -y, -z) }
  }

  datatype Vec4 = Vec4(x: real, y: real, z: real, w: real)

  const Zero3: Vec3 := Vec3(0.0, 0.0, 0.0)
  const One3: Vec3 := Vec3(1.0, 1.0, 1.0)

  /** A point of 3-space in homogeneous coordinates. */
  function Point(p: Vec3): Vec4 { Vec4(p.x, p.y, p.z, 1.0) }

  predicate IsMat4(m: seq<seq<real>>) {
    |m| == 4 && |m[0]| == 4 && |m[1]| == 4 && |m[2]| == 4 && |m[3]| == 4
  }

  /** A 4x4 matrix; for glm matrices m[c][r] is column c, row r. */
  type Mat4 = m: seq<seq<real>> | IsMat4(m)
    witness [[1.0, 0.0, 0.0, 0.0], [0.0, 1.0, 0.0, 0.0], [0.0, 0.0, 1.0, 0.0], [0.0, 0.0, 0.0, 1.0]]

  /** glm::mat4{ 1 }. */
  function Identity(): Mat4 {
    [[1.0, 0.0, 0.0, 0.0], [0.0, 1.0, 0.0, 0.0], [0.0, 0.0, 1.0, 0.0], [0.0, 0.0, 0.0, 1.0]]
  }

  /** Builds a matrix from its four columns. */
  function Columns(c0: seq<real>, c1: seq<real>, c2: seq<real>, c3: seq<real>): Mat4
    requires |c0| == |c1| == |c2| == |c3| == 4
  {
    [c0, c1, c2, c3]
  }

  /** Row r of a * b, column c (column-major product, as glm's operator*). */
  function MulEntry(a: Mat4, b: Mat4, c: int, r: int): real
    requires 0 <= c < 4 && 0 <= r < 4
  {
    a[0][r] * b[c][0] + a[1][r] * b[c][1] + a[2][r] * b[c][2] + a[3][r] * b[c][3]
  }

  function MulColumn(a: Mat4, b: Mat4, c: int): (col: seq<real>)
    requires 0 <= c < 4
    ensures |col| == 4
  {
    [MulEntry(a, b, c, 0), MulEntry(a, b, c, 1), MulEntry(a, b, c, 2), MulEntry(a, b, c, 3)]
  }

  /** The matrix product a * b. */
  function Mul(a: Mat4, b: Mat4): Mat4 {
    Columns(MulColumn(a, b, 0), MulColumn(a, b, 1), MulColumn(a, b, 2), MulColumn(a, b, 3))
  }

  /** Matrix times column vector (glm's mat4 * vec4). */
  function Apply(m: Mat4, v: Vec4): Vec4 {
    Vec4(m[0][0] * v.x + m[1][0] * v.y + m[2][0] * v.z + m[3][0] * v.w,
         m[0][1] * v.x + m[1][1] * v.y + m[2][1] * v.z + m[3][1] * v.w,
         m[0][2] * v.x + m[1][2] * v.y + m[2][2] * v.z + m[3][2] * v.w,
         m[0][3] * v.x + m[1][3] * v.y + m[2][3] * v.z + m[3][3] * v.w)
  }

  /** The matrix whose entry [i][j] is m[j][i]. */
  function Transposed(m: Mat4): (t: Mat4)
    ensures forall i, j | 0 <= i < 4 && 0 <= j < 4 :: t[i][j] == m[j][i]
  {
    Columns([m[0][0], m[1][0], m[2][0], m[3][0]],
            [m[0][1], m[1][1], m[2][1], m[3][1]],
            [m[0][2], m[1][2], m[2][2], m[3][2]],
            [m[0][3], m[1][3], m[2][3], m[3][3]])
  }

  /** The factor glm::translate(m, v) post-multiplies onto m. */
  function Translate(v: Vec3): (t: Mat4)
    ensures forall p: Vec3 {:trigger Point(p.Plus(v))} :: Apply(t, Point(p)) == Point(p.Plus(v))
    ensures v == Zero3 ==> t == Identity()
  {
    Columns([1.0, 0.0, 0.0, 0.0], [0.0, 1.0, 0.0, 0.0], [0.0, 0.0, 1.0, 0.0], [v.x, v.y, v.z, 1.0])
  }

  /** The factor glm::scale(m, v) post-multiplies onto m. */
  function Scale(v: Vec3): (s: Mat4)
    ensures forall p: Vec3 {:trigger Point(p.Times(v))} :: Apply(s, Point(p)) == Point(p.Times(v))
    ensures v == One3 ==> s == Identity()
  {
    Columns([v.x, 0.0, 0.0, 0.0], [0.0, v.y, 0.0, 0.0], [0.0, 0.0, v.z, 0.0], [0.0, 0.0, 0.0, 1.0])
  }

  /** Cosine and sine, which this model does not compute: every trigonometric
      value comes from these two functions. */
  datatype Trig = Trig(cos: real -> real, sin: real -> real)

  /** The only trigonometric facts the model relies on. */
  predicate ExactAtZero(trig: Trig) {
    trig.cos(0.0) == 1.0 && trig.sin(0.0) == 0.0
  }

  /** The unit axes glm::rotate is called with. */
  datatype Axis = XAxis | YAxis | ZAxis

  /** The axis after this one in the right-handed order X, Y, Z, X. */
  function Next(axis: Axis): Axis {
    match axis
    case XAxis => YAxis
    case YAxis => ZAxis
    case ZAxis => XAxis
  }

  /** The point k units along the axis. */
  function AlongAxis(axis: Axis, k: real): Vec3 {
    match axis
    case XAxis => Vec3(k, 0.0, 0.0)
    case YAxis => Vec3(0.0, k, 0.0)
    case ZAxis => Vec3(0.0, 0.0, k)
  }

  /** The factor glm::rotate(m, angle, axis) post-multiplies onto m, for a unit
      coordinate axis: a right-handed rotation by angle about that axis
      (RotateIsAboutAxis). */
  function Rotate(axis: Axis, angle: real, trig: Trig): (q: Mat4)
    ensures Apply(q, Point(Zero3)) == Point(Zero3)
    ensures ExactAtZero(trig) && angle == 0.0 ==> q == Identity()
  {
    var c, s := trig.cos(angle), trig.sin(angle);
    match axis
    case XAxis => Columns([1.0, 0.0, 0.0, 0.0], [0.0, c, s, 0.0], [0.0, -s, c, 0.0], [0.0, 0.0, 0.0, 1.0])
    case YAxis => Columns([c, 0.0, -s, 0.0], [0.0, 1.0, 0.0, 0.0], [s, 0.0, c, 0.0], [0.0, 0.0, 0.0, 1.0])
    case ZAxis => Columns([c, s, 0.0, 0.0], [-s, c, 0.0, 0.0], [0.0, 0.0, 1.0, 0.0], [0.0, 0.0, 0.0, 1.0])
  }

  /** A rotation about an axis fixes every point of that axis, and turns the unit
      point of the next axis by angle towards the axis after it: X towards Y about
      Z, Y towards Z about X, Z towards X about Y. */
  lemma RotateIsAboutAxis(axis: Axis, angle: real, trig: Trig, k: real)
    ensures var q := Rotate(axis, angle, trig);
      && Apply(q, Point(AlongAxis(axis, k))) == Point(AlongAxis(axis, k))
      && Apply(q, Point(AlongAxis(Next(axis), 1.0)))
         == Point(AlongAxis(Next(axis), trig.cos(angle)).Plus(AlongAxis(Next(Next(axis)), trig.sin(angle))))
  {
  }

  /** Column c of a matrix product, entry by entry. */
  lemma MulAt(a: Mat4, b: Mat4, c: int)
    requires 0 <= c < 4
    ensures Mul(a, b)[c] == [MulEntry(a, b, c, 0), MulEntry(a, b, c, 1), MulEntry(a, b, c, 2), MulEntry(a, b, c, 3)]
  {
  }

  lemma MulIdentityLeft(m: Mat4)
    ensures Mul(Identity(), m) == m
  {
    forall c | 0 <= c < 4 ensures Mul(Identity(), m)[c] == m[c] {
      MulAt(Identity(), m, c);
      assert MulEntry(Identity(), m, c, 0) == m[c][0];
      assert MulEntry(Identity(), m, c, 1) == m[c][1];
      assert MulEntry(Identity(), m, c, 2) == m[c][2];
      assert MulEntry(Identity(), m, c, 3) == m[c][3];
    }
  }

  lemma MulIdentityRight(m: Mat4)
    ensures Mul(m, Identity()) == m
  {
    forall c | 0 <= c < 4 ensures Mul(m, Identity())[c] == m[c] {
      MulAt(m, Identity(), c);
      assert MulEntry(m, Identity(), c, 0) == m[c][0];
      assert MulEntry(m, Identity(), c, 1) == m[c][1];
      assert MulEntry(m, Identity(), c, 2) == m[c][2];
      assert MulEntry(m, Identity(), c, 3) == m[c][3];
    }
  }

  /** Sum over c of (sum over k of a_k * b_ck) * v_c equals sum over k of a_k * (sum over c of b_ck * v_c):
      the regrouping both associativity proofs rest on. */
  lemma Regroup(a0: real, a1: real, a2: real, a3: real,
                b00: real, b01: real, b02: real, b03: real,
                b10: real, b11: real, b12: real, b13: real,
                b20: real, b21: real, b22: real, b23: real,
                b30: real, b31: real, b32: real, b33: real,
                v0: real, v1: real, v2: real, v3: real)
    ensures (a0 * b00 + a1 * b01 + a2 * b02 + a3 * b03) * v0
          + (a0 * b10 + a1 * b11 + a2 * b12 + a3 * b13) * v1
          + (a0 * b20 + a1 * b21 + a2 * b22 + a3 * b23) * v2
          + (a0 * b30 + a1 * b31 + a2 * b32 + a3 * b33) * v3
         == a0 * (b00 * v0 + b10 * v1 + b20 * v2 + b30 * v3)
          + a1 * (b01 * v0 + b11 * v1 + b21 * v2 + b31 * v3)
          + a2 * (b02 * v0 + b12 * v1 + b22 * v2 + b32 * v3)
          + a3 * (b03 * v0 + b13 * v1 + b23 * v2 + b33 * v3)
  {
  }

  /** Entry [c][r] of a matrix product. */
  lemma MulEntryAt(a: Mat4, b: Mat4, c: int, r: int)
    requires 0 <= c < 4 && 0 <= r < 4
    ensures Mul(a, b)[c][r] == MulEntry(a, b, c, r)
  {
    MulAt(a, b, c);
  }

  /** Row r of Apply(Mul(a, b), v) equals row r of Apply(a, Apply(b, v)). */
  lemma ApplyMulRow(a: Mat4, b: Mat4, v: Vec4, r: int)
    requires 0 <= r < 4
    ensures Mul(a, b)[0][r] * v.x + Mul(a, b)[1][r] * v.y + Mul(a, b)[2][r] * v.z + Mul(a, b)[3][r] * v.w
         == a[0][r] * (b[0][0] * v.x + b[1][0] * v.y + b[2][0] * v.z + b[3][0] * v.w)
          + a[1][r] * (b[0][1] * v.x + b[1][1] * v.y + b[2][1] * v.z + b[3][1] * v.w)
          + a[2][r] * (b[0][2] * v.x + b[1][2] * v.y + b[2][2] * v.z + b[3][2] * v.w)
          + a[3][r] * (b[0][3] * v.x + b[1][3] * v.y + b[2][3] * v.z + b[3][3] * v.w)
  {
    MulEntryAt(a, b, 0, r); MulEntryAt(a, b, 1, r); MulEntryAt(a, b, 2, r); MulEntryAt(a, b, 3, r);
    Regroup(a[0][r], a[1][r], a[2][r], a[3][r],
            b[0][0], b[0][1], b[0][2], b[0][3],
            b[1][0], b[1][1], b[1][2], b[1][3],
            b[2][0], b[2][1], b[2][2], b[2][3],
            b[3][0], b[3][1], b[3][2], b[3][3],
            v.x, v.y, v.z, v.w);
  }

  /** Applying a product applies its right factor first. */
  lemma ApplyMul(a: Mat4, b: Mat4, v: Vec4)
    ensures Apply(Mul(a, b), v) == Apply(a, Apply(b, v))
  {
    ApplyMulRow(a, b, v, 0);
    ApplyMulRow(a, b, v, 1);
    ApplyMulRow(a, b, v, 2);
    ApplyMulRow(a, b, v, 3);
  }

  /** Column k of m as a vector. */
  function Col(m: Mat4, k: int): Vec4
    requires 0 <= k < 4
  {
    Vec4(m[k][0], m[k][1], m[k][2], m[k][3])
  }

  /** Column k of a product x * y is x applied to column k of y. */
  lemma MulColumnIsApply(x: Mat4, y: Mat4, k: int)
    requires 0 <= k < 4
    ensures Col(Mul(x, y), k) == Apply(x, Col(y, k))
  {
    MulAt(x, y, k);
    var v := Col(y, k);
    assert v.x == y[k][0] && v.y == y[k][1] && v.z == y[k][2] && v.w == y[k][3];
    assert Mul(x, y)[k][0] == Apply(x, v).x;
    assert Mul(x, y)[k][1] == Apply(x, v).y;
    assert Mul(x, y)[k][2] == Apply(x, v).z;
    assert Mul(x, y)[k][3] == Apply(x, v).w;
  }

  /** The matrix product is associative, so a chain of post-multiplications may be
      regrouped freely. */
  lemma MulAssociative(a: Mat4, b: Mat4, c: Mat4)
    ensures Mul(Mul(a, b), c) == Mul(a, Mul(b, c))
  {
    var left, right := Mul(Mul(a, b), c), Mul(a, Mul(b, c));
    forall k | 0 <= k < 4 ensures left[k] == right[k] {
      calc {
        Col(left, k);
        { MulColumnIsApply(Mul(a, b), c, k); }
        Apply(Mul(a, b), Col(c, k));
        { ApplyMul(a, b, Col(c, k)); }
        Apply(a, Apply(b, Col(c, k)));
        { MulColumnIsApply(b, c, k); }
        Apply(a, Col(Mul(b, c), k));
        { MulColumnIsApply(a, Mul(b, c), k); }
        Col(right, k);
      }
    }
  }

  lemma TransposeTwice(m: Mat4)
    ensures Transposed(Transposed(m)) == m
  {
    var t := Transposed(Transposed(m));
    forall i | 0 <= i < 4 ensures t[i] == m[i] {
      assert t[i][0] == m[i][0] && t[i][1] == m[i][1] && t[i][2] == m[i][2] && t[i][3] == m[i][3];
    }
  }
}
