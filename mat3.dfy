/**
 The 3x3 matrix layer that the 2D affine operations build on: the value
 types `vec2`, `vec3` and `mat3`, the column-major storage of a `mat3` as a
 3x3 array, and the two primitives the affine module calls, identity and
 copy.

 A `mat3` is column-major: `m[i][j]` is row `j` of column `i`. Column 2 holds
 the translation, columns 0 and 1 the linear basis. Entries are modelled as
 `real`, so every equation below is exact.
 */
module Mat3 {

  /** A 2-component vector: a translation offset or a per-axis scale factor. */
  datatype Vec2 = Vec2(x: real, y: real)

  /** A 3-component vector: one column of a `mat3`, or a homogeneous point. */
  datatype Vec3 = Vec3(x: real, y: real, z: real)
  {
    function Scale(k: real): Vec3 { Vec3(x * k, y * k, z * k) }
    function Plus(o: Vec3): Vec3 { Vec3(x + o.x, y + o.y, z + o.z) }
    function Neg(): Vec3 { Vec3(-x, -y, -z) }
  }

  /** The linear combination `a * p + b * q` of two columns, entry by entry. */
  function Lin(a: Vec3, p: real, b: Vec3, q: real): Vec3
  {
    Vec3(a.x * p + b.x * q, a.y * p + b.y * q, a.z * p + b.z * q)
  }

  /** A 3x3 matrix as its three columns: `col0 == m[0]`, `col1 == m[1]`, `col2 == m[2]`. */
  datatype Mat3 = Mat3(col0: Vec3, col1: Vec3, col2: Vec3)

  /** The identity matrix. */
  function Identity(): Mat3
  {
    Mat3(Vec3(1.0, 0.0, 0.0), Vec3(0.0, 1.0, 0.0), Vec3(0.0, 0.0, 1.0))
  }

  /** The column vector `m * p`: column `i` of `m` weighted by component `i` of `p`. */
  function Apply(m: Mat3, p: Vec3): Vec3
  {
    Vec3(m.col0.x * p.x + m.col1.x * p.y + m.col2.x * p.z,
         m.col0.y * p.x + m.col1.y * p.y + m.col2.y * p.z,
         m.col0.z * p.x + m.col1.z * p.y + m.col2.z * p.z)
  }

  /**
   The matrix product `a * b` in column-major form: column `i` of the product
   is `a` applied to column `i` of `b`. Applying the product to a point first
   applies `b`, then `a`.
   */
  function Mul(a: Mat3, b: Mat3): Mat3
  {
    Mat3(Apply(a, b.col0), Apply(a, b.col1), Apply(a, b.col2))
  }

  /** A point with `z == 0` picks a combination of columns 0 and 1 only. */
  lemma ApplyPlanar(m: Mat3, p: real, q: real)
    ensures Apply(m, Vec3(p, q, 0.0)) == Lin(m.col0, p, m.col1, q)
  {
    var r := Apply(m, Vec3(p, q, 0.0));
    assert r.x == m.col0.x * p + m.col1.x * q;
    assert r.y == m.col0.y * p + m.col1.y * q;
    assert r.z == m.col0.z * p + m.col1.z * q;
  }

  /** A point with `z == 1` adds column 2 to the combination of columns 0 and 1. */
  lemma ApplyHomogeneous(m: Mat3, p: real, q: real)
    ensures Apply(m, Vec3(p, q, 1.0)) == Lin(m.col0, p, m.col1, q).Plus(m.col2)
  {
    var r := Apply(m, Vec3(p, q, 1.0));
    assert r.x == m.col0.x * p + m.col1.x * q + m.col2.x;
    assert r.y == m.col0.y * p + m.col1.y * q + m.col2.y;
    assert r.z == m.col0.z * p + m.col1.z * q + m.col2.z;
  }

  /** A point on axis 0 picks column 0, scaled. */
  lemma ApplyAxis0(m: Mat3, k: real)
    ensures Apply(m, Vec3(k, 0.0, 0.0)) == m.col0.Scale(k)
  {
    AxisEntries(m.col0.x, m.col1.x, m.col2.x, k);
    AxisEntries(m.col0.y, m.col1.y, m.col2.y, k);
    AxisEntries(m.col0.z, m.col1.z, m.col2.z, k);
  }

  /** A point on axis 1 picks column 1, scaled. */
  lemma ApplyAxis1(m: Mat3, k: real)
    ensures Apply(m, Vec3(0.0, k, 0.0)) == m.col1.Scale(k)
  {
    AxisEntries(m.col0.x, m.col1.x, m.col2.x, k);
    AxisEntries(m.col0.y, m.col1.y, m.col2.y, k);
    AxisEntries(m.col0.z, m.col1.z, m.col2.z, k);
  }

  /** The unit points pick single columns. */
  lemma ApplyUnit(m: Mat3)
    ensures Apply(m, Vec3(1.0, 0.0, 0.0)) == m.col0
    ensures Apply(m, Vec3(0.0, 1.0, 0.0)) == m.col1
    ensures Apply(m, Vec3(0.0, 0.0, 1.0)) == m.col2
  {
    UnitEntries(m.col0.x, m.col1.x, m.col2.x);
    UnitEntries(m.col0.y, m.col1.y, m.col2.y);
    UnitEntries(m.col0.z, m.col1.z, m.col2.z);
  }

  /** One row of `ApplyUnit`. */
  lemma UnitEntries(a: real, b: real, c: real)
    ensures a * 1.0 + b * 0.0 + c * 0.0 == a
    ensures a * 0.0 + b * 1.0 + c * 0.0 == b
    ensures a * 0.0 + b * 0.0 + c * 1.0 == c
  {
  }

  /** One row of `ApplyAxis0` and `ApplyAxis1`: the zero components drop out. */
  lemma AxisEntries(a: real, b: real, c: real, k: real)
    ensures a * k + b * 0.0 + c * 0.0 == a * k
    ensures a * 0.0 + b * k + c * 0.0 == b * k
  {
  }

  /** Column `i` of `m`, that is `m[i]`. */
  function Col(m: Mat3, i: int): Vec3
    requires 0 <= i < 3
  {
    if i == 0 then m.col0 else if i == 1 then m.col1 else m.col2
  }

  /** `m` with column `i` replaced by `v`. */
  function WithCol(m: Mat3, i: int, v: Vec3): (r: Mat3)
    requires 0 <= i < 3
    ensures Col(r, i) == v
    ensures forall k | 0 <= k < 3 && k != i :: Col(r, k) == Col(m, k)
  {
    if i == 0 then m.(col0 := v) else if i == 1 then m.(col1 := v) else m.(col2 := v)
  }

  /** The entry `m[i][j]`: row `j` of column `i`. */
  function Entry(m: Mat3, i: int, j: int): real
    requires 0 <= i < 3 && 0 <= j < 3
  {
    At(Col(m, i), j)
  }

  /** The determinant of the linear part: the 2x2 block of columns 0 and 1, rows 0 and 1. */
  function Det2(m: Mat3): real
  {
    m.col0.x * m.col1.y - m.col1.x * m.col0.y
  }

  // ---------------------------------------------------------------------
  // Storage: a caller-owned `mat3` buffer as a 3x3 array, `m[i, j] == m[i][j]`.

  /** The shape of a `mat3` buffer: 3 columns of 3 entries. */
  predicate IsMat3(m: array2<real>)
  {
    m.Length0 == 3 && m.Length1 == 3
  }

  /** The matrix a buffer currently holds. */
  function Value(m: array2<real>): (r: Mat3)
    requires IsMat3(m)
    reads m
    ensures forall j :: 0 <= j < 3 ==> m[0, j] == At(r.col0, j) && m[1, j] == At(r.col1, j) && m[2, j] == At(r.col2, j)
  {
    Mat3(Vec3(m[0, 0], m[0, 1], m[0, 2]),
         Vec3(m[1, 0], m[1, 1], m[1, 2]),
         Vec3(m[2, 0], m[2, 1], m[2, 2]))
  }

  /** Component `j` of a column. */
  function At(v: Vec3, j: int): real
    requires 0 <= j < 3
  {
    if j == 0 then v.x else if j == 1 then v.y else v.z
  }

  /** `glm_mat3_identity`: overwrites every entry of `m` with the identity. */
  method SetIdentity(m: array2<real>)
    requires IsMat3(m)
    modifies m
    ensures Value(m) == Identity()
  {
    m[0, 0], m[0, 1], m[0, 2] := 1.0, 0.0, 0.0;
    m[1, 0], m[1, 1], m[1, 2] := 0.0, 1.0, 0.0;
    m[2, 0], m[2, 1], m[2, 2] := 0.0, 0.0, 1.0;
  }

  /** `glm_mat3_copy`: element-wise copy of `src` into a distinct buffer `dest`. */
  method Copy(src: array2<real>, dest: array2<real>)
    requires IsMat3(src) && IsMat3(dest) && src != dest
    modifies dest
    ensures Value(dest) == Value(src) && Value(src) == old(Value(src))
  {
    dest[0, 0], dest[0, 1], dest[0, 2] := src[0, 0], src[0, 1], src[0, 2];
    dest[1, 0], dest[1, 1], dest[1, 2] := src[1, 0], src[1, 1], src[1, 2];
    dest[2, 0], dest[2, 1], dest[2, 2] := src[2, 0], src[2, 1], src[2, 2];
  }
}
