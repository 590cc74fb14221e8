/**
 2D affine transforms on a 3x3 homogeneous matrix: translate, scale and
 rotate, each in place, into a separate destination, and as a "make"
 constructor.

 The value-level functions below say what each operation computes; the
 methods at the end perform the source's element writes, in the source's
 order, on a caller-owned buffer and are proved to leave exactly that value
 behind. The rotations follow the code as written: the in-place ones read
 column 0 after overwriting it, and the out-of-place one copies column 0
 into column 2. `RotatedIntended` is the rotation the code evidently meant.
 */
module Affine2D {
  import opened Mat3

  // ---------------------------------------------------------------------
  // Reference matrices

  /** The matrix `glm_translate2d_make` builds: the identity with `v` in column 2. */
  function TranslationMatrix(v: Vec2): (r: Mat3)
    ensures forall i, j | 0 <= i < 3 && 0 <= j < 3 ::
      Entry(r, i, j) == if i == 2 && j == 0 then v.x
                        else if i == 2 && j == 1 then v.y
                        else Entry(Identity(), i, j)
    ensures r == Identity() <==> v == Vec2(0.0, 0.0)
  {
    Identity().(col2 := Vec3(v.x, v.y, 1.0))
  }

  /** The matrix `glm_scale2d_make` builds: the identity with `v` on the first two diagonal entries. */
  function ScaleMatrix(v: Vec2): (r: Mat3)
    ensures forall i, j | 0 <= i < 3 && 0 <= j < 3 ::
      Entry(r, i, j) == if i == 0 && j == 0 then v.x
                        else if i == 1 && j == 1 then v.y
                        else Entry(Identity(), i, j)
    ensures r == Identity() <==> v == Vec2(1.0, 1.0)
  {
    Identity().(col0 := Vec3(v.x, 0.0, 0.0), col1 := Vec3(0.0, v.y, 0.0))
  }

  /** The counter-clockwise rotation by the angle whose cosine is `c` and sine is `s`. */
  function RotationMatrix(c: real, s: real): Mat3
  {
    Mat3(Vec3(c, s, 0.0), Vec3(-s, c, 0.0), Vec3(0.0, 0.0, 1.0))
  }

  /**
   The matrix the in-place rotations of the source effectively multiply by:
   column 0 is that of a rotation, but column 1 is built from the already
   rotated column 0.
   */
  function InPlaceRotationMatrix(c: real, s: real): Mat3
  {
    Mat3(Vec3(c, s, 0.0), Vec3(-c * s, c - s * s, 0.0), Vec3(0.0, 0.0, 1.0))
  }

  // ---------------------------------------------------------------------
  // What each operation computes

  /** `glm_translate2d`: moves the origin by `v` in the transform's own basis; the basis is kept. */
  function Translated(m: Mat3, v: Vec2): (r: Mat3)
    ensures r.col0 == m.col0 && r.col1 == m.col1
    ensures r.col2 == m.col2 <==> m.col0.Scale(v.x).Plus(m.col1.Scale(v.y)) == Vec3(0.0, 0.0, 0.0)
  {
    m.(col2 := Lin(m.col0, v.x, m.col1, v.y).Plus(m.col2))
  }

  /** `glm_scale2d`: scales basis column 0 by `v.x` and column 1 by `v.y`; the translation is kept. */
  function Scaled(m: Mat3, v: Vec2): (r: Mat3)
    ensures r.col2 == m.col2
    ensures v == Vec2(1.0, 1.0) ==> r == m
  {
    m.(col0 := m.col0.Scale(v.x), col1 := m.col1.Scale(v.y))
  }

  /** The rotation the code evidently intends: `m` times the rotation matrix, column 2 kept. */
  function RotatedIntended(m: Mat3, c: real, s: real): (r: Mat3)
    ensures r.col2 == m.col2
    ensures c == 1.0 && s == 0.0 ==> r == m
  {
    m.(col0 := Lin(m.col0, c, m.col1, s), col1 := Lin(m.col0, -s, m.col1, c))
  }

  /**
   `glm_rotate2d` as written: column 0 is rotated, then column 1 is computed
   from the NEW column 0 and the old column 1. Column 2 is kept.
   */
  function Rotated(m: Mat3, c: real, s: real): (r: Mat3)
    ensures r.col2 == m.col2
    ensures r.col0 == RotatedIntended(m, c, s).col0
  {
    var n0 := Lin(m.col0, c, m.col1, s);
    m.(col0 := n0, col1 := Lin(n0, -s, m.col1, c))
  }

  /**
   `glm_rotate2d_make` as written: the in-place rotation of columns 0 and 1,
   with column 2 forced to `[0, 0, 1]`. It rotates whatever basis `m` holds,
   and drops its translation.
   */
  function RotatedMake(m: Mat3, c: real, s: real): (r: Mat3)
    ensures r.col2 == Identity().col2
    ensures r.col0 == RotatedIntended(m, c, s).col0
    ensures m.col2 == Identity().col2 ==> r == Rotated(m, c, s)
  {
    Rotated(m, c, s).(col2 := Vec3(0.0, 0.0, 1.0))
  }

  /**
   `glm_rotate2d_to` as written: columns 0 and 1 are both computed from the
   original columns, but column 2 receives the original column 0.
   */
  function RotatedTo(m: Mat3, c: real, s: real): (r: Mat3)
    ensures r.col0 == RotatedIntended(m, c, s).col0
    ensures r.col1 == RotatedIntended(m, c, s).col1
    ensures r.col2 == m.col0
  {
    Mat3(Lin(m.col0, c, m.col1, s), Lin(m.col0, -s, m.col1, c), m.col0)
  }

  // ---------------------------------------------------------------------
  // Each operation against the matrix product

  /** Translation is right-multiplication by the translation matrix. */
  lemma TranslatedIsProduct(m: Mat3, v: Vec2)
    ensures Translated(m, v) == Mul(m, TranslationMatrix(v))
  {
    assert TranslationMatrix(v) == Mat3(Vec3(1.0, 0.0, 0.0), Vec3(0.0, 1.0, 0.0), Vec3(v.x, v.y, 1.0));
    ApplyUnit(m);
    ApplyHomogeneous(m, v.x, v.y);
  }

  /** Scaling is right-multiplication by the scale matrix. */
  lemma ScaledIsProduct(m: Mat3, v: Vec2)
    ensures Scaled(m, v) == Mul(m, ScaleMatrix(v))
  {
    assert ScaleMatrix(v) == Mat3(Vec3(v.x, 0.0, 0.0), Vec3(0.0, v.y, 0.0), Vec3(0.0, 0.0, 1.0));
    ApplyAxis0(m, v.x);
    ApplyAxis1(m, v.y);
    ApplyUnit(m);
  }

  /** The intended rotation is right-multiplication by the rotation matrix. */
  lemma RotatedIntendedIsProduct(m: Mat3, c: real, s: real)
    ensures RotatedIntended(m, c, s) == Mul(m, RotationMatrix(c, s))
  {
    ApplyPlanar(m, c, s);
    ApplyPlanar(m, -s, c);
    ApplyUnit(m);
  }

  /** The in-place rotation as written is right-multiplication by `InPlaceRotationMatrix`. */
  lemma RotatedIsProduct(m: Mat3, c: real, s: real)
    ensures Rotated(m, c, s) == Mul(m, InPlaceRotationMatrix(c, s))
  {
    ApplyPlanar(m, c, s);
    ApplyPlanar(m, -c * s, c - s * s);
    ApplyUnit(m);
    var n0, q := Lin(m.col0, c, m.col1, s), Lin(m.col0, -c * s, m.col1, c - s * s);
    assert Lin(n0, -s, m.col1, c) == q by {
      ShearEntry(m.col0.x, m.col1.x, n0.x, c, s);
      ShearEntry(m.col0.y, m.col1.y, n0.y, c, s);
      ShearEntry(m.col0.z, m.col1.z, n0.z, c, s);
    }
  }

  // ---------------------------------------------------------------------
  // Properties

  /** Translating by `v` and then by `-v` restores the matrix exactly. */
  lemma TranslateRoundTrip(m: Mat3, v: Vec2)
    ensures Translated(Translated(m, v), Vec2(-v.x, -v.y)) == m
  {
    var w := Vec2(-v.x, -v.y);
    CancelEntry(m.col0.x, m.col1.x, m.col2.x, v.x, v.y, w.x, w.y);
    CancelEntry(m.col0.y, m.col1.y, m.col2.y, v.x, v.y, w.x, w.y);
    CancelEntry(m.col0.z, m.col1.z, m.col2.z, v.x, v.y, w.x, w.y);
  }

  /** Two translations compose into one by the sum of the offsets. */
  lemma TranslateCompose(m: Mat3, a: Vec2, b: Vec2)
    ensures Translated(Translated(m, a), b) == Translated(m, Vec2(a.x + b.x, a.y + b.y))
  {
    ComposeColumns(m, a, b);
  }

  /** Two scalings compose into one by the component-wise product of the factors. */
  lemma ScaleCompose(m: Mat3, a: Vec2, b: Vec2)
    ensures Scaled(Scaled(m, a), b) == Scaled(m, Vec2(a.x * b.x, a.y * b.y))
  {
    ScaleEntries(m.col0, a.x, b.x);
    ScaleEntries(m.col1, a.y, b.y);
  }

  /** The in-place rotation multiplies the determinant of the basis by `c * c`, not by `c * c + s * s`. */
  lemma RotatedDet(m: Mat3, c: real, s: real)
    ensures Det2(Rotated(m, c, s)) == c * c * Det2(m)
  {
    var r := Rotated(m, c, s);
    ShearDet(r.col0.x, r.col0.y, r.col1.x, r.col1.y, m.col0.x, m.col0.y, m.col1.x, m.col1.y, c, s);
  }

  /** The intended rotation multiplies the determinant of the basis by `c * c + s * s`. */
  lemma RotatedIntendedDet(m: Mat3, c: real, s: real)
    ensures Det2(RotatedIntended(m, c, s)) == (c * c + s * s) * Det2(m)
  {
    RotationDetColumns(m, c, s);
  }

  /**
   A quarter turn (`c == 0`, `s == 1`) in place moves column 1 into column 0
   and then makes column 1 its negation, so the basis collapses.
   */
  lemma RotateQuarterTurn(m: Mat3)
    ensures Rotated(m, 0.0, 1.0) == m.(col0 := m.col1, col1 := m.col1.Neg())
    ensures Det2(Rotated(m, 0.0, 1.0)) == 0.0
  {
    var r := Rotated(m, 0.0, 1.0);
    assert r.col1 == r.col0.Neg();
    NegatedColumnDet(r.col0.x, r.col0.y, r.col1.x, r.col1.y);
  }

  /** The intended quarter turn takes column 1 to column 0 and the negated column 0 to column 1. */
  lemma RotateIntendedQuarterTurn(m: Mat3)
    ensures RotatedIntended(m, 0.0, 1.0) == m.(col0 := m.col1, col1 := m.col0.Neg())
  {
  }

  /** On the identity, the in-place rotation is the intended one exactly when the sine is zero. */
  lemma RotatedIsIntendedIff(c: real, s: real)
    ensures Rotated(Identity(), c, s) == RotatedIntended(Identity(), c, s) <==> s == 0.0
  {
    var r, t := Rotated(Identity(), c, s), RotatedIntended(Identity(), c, s);
    assert r.col1.y == c - s * s;
    assert t.col1.y == c;
    if s != 0.0 {
      assert s * s != 0.0 by { NonZeroSquare(s); }
      assert r != t;
    } else {
      assert r == t;
    }
  }

  /** With a unit cosine/sine pair, the intended rotation by `(c, -s)` undoes the one by `(c, s)`. */
  lemma RotateIntendedRoundTrip(m: Mat3, c: real, s: real)
    requires c * c + s * s == 1.0
    ensures RotatedIntended(RotatedIntended(m, c, s), c, -s) == m
  {
    UnrotateColumn0(m.col0, m.col1, c, s);
    UnrotateColumn1(m.col0, m.col1, c, s);
  }

  /** The in-place rotation by a quarter turn is not undone by the opposite quarter turn. */
  lemma RotateRoundTripFails()
    ensures Rotated(Rotated(Identity(), 0.0, 1.0), 0.0, -1.0) != Identity()
  {
  }

  /**
   `glm_rotate2d_make` as written, on the identity: the result is
   `InPlaceRotationMatrix`, which is the rotation matrix only when the sine is
   zero.
   */
  lemma RotatedMakeOnIdentity(c: real, s: real)
    ensures RotatedMake(Identity(), c, s) == InPlaceRotationMatrix(c, s)
    ensures RotatedMake(Identity(), c, s) == RotationMatrix(c, s) <==> s == 0.0
  {
    var r := RotatedMake(Identity(), c, s);
    assert r.col0 == Vec3(c, s, 0.0);
    assert r.col1 == Vec3(-c * s, c - s * s, 0.0);
    if s != 0.0 {
      assert s * s != 0.0 by { NonZeroSquare(s); }
      assert r.col1.y != c;
    }
  }

  /** The corrected make on the identity builds exactly the rotation matrix. */
  lemma RotatedMakeIntendedOnIdentity(c: real, s: real)
    ensures RotatedIntended(Identity(), c, s).(col2 := Identity().col2) == RotationMatrix(c, s)
  {
    var r := RotatedIntended(Identity(), c, s);
    assert r.col0 == Vec3(c, s, 0.0);
    assert r.col1 == Vec3(-s, c, 0.0);
  }

  /** The out-of-place rotation of the identity is neither the in-place nor the intended rotation. */
  lemma RotatedToDiffers(c: real, s: real)
    ensures RotatedTo(Identity(), c, s) != Rotated(Identity(), c, s)
    ensures RotatedTo(Identity(), c, s) != RotatedIntended(Identity(), c, s)
  {
    assert RotatedTo(Identity(), c, s).col2 == Vec3(1.0, 0.0, 0.0);
    assert Rotated(Identity(), c, s).col2 == Vec3(0.0, 0.0, 1.0);
    assert RotatedIntended(Identity(), c, s).col2 == Vec3(0.0, 0.0, 1.0);
  }

  /** Translating the identity by (3, 4) and then scaling by (2, 2) gives `ScenarioStart`. */
  lemma ScenarioSetup()
    ensures Scaled(TranslationMatrix(Vec2(3.0, 4.0)), Vec2(2.0, 2.0)) == ScenarioStart()
  {
    var t := TranslationMatrix(Vec2(3.0, 4.0));
    assert t == Mat3(Vec3(1.0, 0.0, 0.0), Vec3(0.0, 1.0, 0.0), Vec3(3.0, 4.0, 1.0));
    assert t.col0.Scale(2.0) == Vec3(2.0, 0.0, 0.0);
    assert t.col1.Scale(2.0) == Vec3(0.0, 2.0, 0.0);
  }

  /**
   Then a quarter turn in place: column 1 ends up as (0, -2, 0), where a true
   rotation gives (-2, 0, 0).
   */
  lemma QuarterTurnScenario()
    ensures Rotated(ScenarioStart(), 0.0, 1.0)
         == Mat3(Vec3(0.0, 2.0, 0.0), Vec3(0.0, -2.0, 0.0), Vec3(3.0, 4.0, 1.0))
    ensures RotatedIntended(ScenarioStart(), 0.0, 1.0)
         == Mat3(Vec3(0.0, 2.0, 0.0), Vec3(-2.0, 0.0, 0.0), Vec3(3.0, 4.0, 1.0))
  {
    RotateQuarterTurn(ScenarioStart());
    RotateIntendedQuarterTurn(ScenarioStart());
  }

  /** The matrix after translating the identity by (3, 4) and scaling by (2, 2). */
  function ScenarioStart(): Mat3
  {
    Mat3(Vec3(2.0, 0.0, 0.0), Vec3(0.0, 2.0, 0.0), Vec3(3.0, 4.0, 1.0))
  }

  // ---------------------------------------------------------------------
  // The operations on a caller-owned `mat3` buffer, `m[i, j]` standing for `m[i][j]`.
  // The rotations take `c == cosf(angle)` and `s == sinf(angle)`: the angle
  // enters the source only through those two library calls.

  /** `glm_translate2d`: rewrites column 2 only. */
  method Translate(m: array2<real>, v: Vec2)
    requires IsMat3(m)
    modifies m
    ensures Value(m) == Translated(old(Value(m)), v)
  {
    ghost var before := Value(m);
    assert before.col0 == Vec3(m[0, 0], m[0, 1], m[0, 2]) && before.col1 == Vec3(m[1, 0], m[1, 1], m[1, 2]);
    m[2, 0] := m[0, 0] * v.x + m[1, 0] * v.y + m[2, 0];
    m[2, 1] := m[0, 1] * v.x + m[1, 1] * v.y + m[2, 1];
    m[2, 2] := m[0, 2] * v.x + m[1, 2] * v.y + m[2, 2];
  }

  /** `glm_translate2d_to`: copies `m` into `dest`, then translates `dest` in place. */
  method TranslateTo(m: array2<real>, v: Vec2, dest: array2<real>)
    requires IsMat3(m) && IsMat3(dest) && dest != m
    modifies dest
    ensures Value(dest) == Translated(Value(m), v)
    ensures Value(m) == old(Value(m))
  {
    Copy(m, dest);
    Translate(dest, v);
  }

  /** `glm_translate2d_x`: the translation by `(x, 0)`, without the multiplications by zero. */
  method TranslateX(m: array2<real>, x: real)
    requires IsMat3(m)
    modifies m
    ensures Value(m) == Translated(old(Value(m)), Vec2(x, 0.0))
  {
    m[2, 0] := m[0, 0] * x + m[2, 0];
    m[2, 1] := m[0, 1] * x + m[2, 1];
    m[2, 2] := m[0, 2] * x + m[2, 2];
  }

  /** `glm_translate2d_y`: the translation by `(0, y)`, without the multiplications by zero. */
  method TranslateY(m: array2<real>, y: real)
    requires IsMat3(m)
    modifies m
    ensures Value(m) == Translated(old(Value(m)), Vec2(0.0, y))
  {
    m[2, 0] := m[1, 0] * y + m[2, 0];
    m[2, 1] := m[1, 1] * y + m[2, 1];
    m[2, 2] := m[1, 2] * y + m[2, 2];
  }

  /** `glm_translate2d_make`: discards `m` and writes the translation matrix of `v`. */
  method TranslateMake(m: array2<real>, v: Vec2)
    requires IsMat3(m)
    modifies m
    ensures Value(m) == TranslationMatrix(v)
  {
    SetIdentity(m);
    m[2, 0] := v.x;
    m[2, 1] := v.y;
  }

  /** `glm_scale2d_to`: writes the scaled columns 0 and 1 and a copy of column 2 into `dest`. */
  method ScaleTo(m: array2<real>, v: Vec2, dest: array2<real>)
    requires IsMat3(m) && IsMat3(dest) && dest != m
    modifies dest
    ensures Value(dest) == Scaled(Value(m), v)
    ensures Value(m) == old(Value(m))
  {
    dest[0, 0] := m[0, 0] * v.x;
    dest[0, 1] := m[0, 1] * v.x;
    dest[0, 2] := m[0, 2] * v.x;

    dest[1, 0] := m[1, 0] * v.y;
    dest[1, 1] := m[1, 1] * v.y;
    dest[1, 2] := m[1, 2] * v.y;

    dest[2, 0] := m[2, 0];
    dest[2, 1] := m[2, 1];
    dest[2, 2] := m[2, 2];
  }

  /** `glm_scale2d_make`: discards `m` and writes the scale matrix of `v`. */
  method ScaleMake(m: array2<real>, v: Vec2)
    requires IsMat3(m)
    modifies m
    ensures Value(m) == ScaleMatrix(v)
  {
    SetIdentity(m);
    m[0, 0] := v.x;
    m[1, 1] := v.y;
  }

  /** `glm_scale2d`: scales columns 0 and 1 in place. */
  method Scale(m: array2<real>, v: Vec2)
    requires IsMat3(m)
    modifies m
    ensures Value(m) == Scaled(old(Value(m)), v)
  {
    ghost var before := Value(m);
    assert before.col0 == Vec3(m[0, 0], m[0, 1], m[0, 2]) && before.col1 == Vec3(m[1, 0], m[1, 1], m[1, 2]);
    m[0, 0] := m[0, 0] * v.x;
    m[0, 1] := m[0, 1] * v.x;
    m[0, 2] := m[0, 2] * v.x;

    m[1, 0] := m[1, 0] * v.y;
    m[1, 1] := m[1, 1] * v.y;
    m[1, 2] := m[1, 2] * v.y;
  }

  /** `glm_scale2d_uni`: the scale by `(s, s)`. */
  method ScaleUni(m: array2<real>, s: real)
    requires IsMat3(m)
    modifies m
    ensures Value(m) == Scaled(old(Value(m)), Vec2(s, s))
  {
    ghost var before := Value(m);
    assert before.col0 == Vec3(m[0, 0], m[0, 1], m[0, 2]) && before.col1 == Vec3(m[1, 0], m[1, 1], m[1, 2]);
    m[0, 0] := m[0, 0] * s;
    m[0, 1] := m[0, 1] * s;
    m[0, 2] := m[0, 2] * s;

    m[1, 0] := m[1, 0] * s;
    m[1, 1] := m[1, 1] * s;
    m[1, 2] := m[1, 2] * s;
  }

  /**
   Three consecutive writes shared by the rotations: row `j` of column `i` of
   `dest` becomes `src[a][j] * p + src[b][j] * q`, for `j` = 0, 1, 2 in turn.
   `src` may be `dest` itself, even with `a == i` or `b == i`: each write reads
   only its own row, which no earlier write of the three has touched, so the
   result is always computed from the entries as they were on entry.
   */
  method CombineInto(src: array2<real>, a: int, p: real, b: int, q: real, dest: array2<real>, i: int)
    requires IsMat3(src) && IsMat3(dest) && 0 <= a < 3 && 0 <= b < 3 && 0 <= i < 3
    modifies dest
    ensures Value(dest) == WithCol(old(Value(dest)), i, Lin(Col(old(Value(src)), a), p, Col(old(Value(src)), b), q))
  {
    ghost var u, w := Col(Value(src), a), Col(Value(src), b);
    assert u == Vec3(src[a, 0], src[a, 1], src[a, 2]) && w == Vec3(src[b, 0], src[b, 1], src[b, 2]);
    dest[i, 0] := src[a, 0] * p + src[b, 0] * q;
    dest[i, 1] := src[a, 1] * p + src[b, 1] * q;
    dest[i, 2] := src[a, 2] * p + src[b, 2] * q;
  }

  /** `glm_rotate2d_make`: the in-place rotation of columns 0 and 1, then column 2 reset. */
  method RotateMake(m: array2<real>, c: real, s: real)
    requires IsMat3(m)
    modifies m
    ensures Value(m) == RotatedMake(old(Value(m)), c, s)
  {
    CombineInto(m, 0, c, 1, s, m, 0);
    CombineInto(m, 0, -s, 1, c, m, 1);

    m[2, 0] := 0.0;
    m[2, 1] := 0.0;
    m[2, 2] := 1.0;
  }

  /** `glm_rotate2d`: column 0 is overwritten first and then read to compute column 1. */
  method Rotate(m: array2<real>, c: real, s: real)
    requires IsMat3(m)
    modifies m
    ensures Value(m) == Rotated(old(Value(m)), c, s)
  {
    CombineInto(m, 0, c, 1, s, m, 0);
    CombineInto(m, 0, -s, 1, c, m, 1);
  }

  /** `glm_rotate2d_to`: reads only `m`, and writes its column 0 into column 2 of `dest`. */
  method RotateTo(m: array2<real>, c: real, s: real, dest: array2<real>)
    requires IsMat3(m) && IsMat3(dest) && dest != m
    modifies dest
    ensures Value(dest) == RotatedTo(Value(m), c, s)
    ensures Value(m) == old(Value(m))
  {
    CombineInto(m, 0, c, 1, s, dest, 0);
    CombineInto(m, 0, -s, 1, c, dest, 1);

    dest[2, 0] := m[0, 0];
    dest[2, 1] := m[0, 1];
    dest[2, 2] := m[0, 2];
  }

  /**
   `glm_rotate2d_make` computed from a copy of `m` taken before any write:
   the corrected form of `RotateMake`. Columns 0 and 1 are the intended
   rotation of the old basis, and column 2 is reset to `[0, 0, 1]`.
   */
  method RotateMakeStaged(m: array2<real>, c: real, s: real)
    requires IsMat3(m)
    modifies m
    ensures Value(m) == RotatedIntended(old(Value(m)), c, s).(col2 := Identity().col2)
  {
    var t := new real[3, 3];
    Copy(m, t);
    CombineInto(t, 0, c, 1, s, m, 0);
    CombineInto(t, 0, -s, 1, c, m, 1);

    m[2, 0] := 0.0;
    m[2, 1] := 0.0;
    m[2, 2] := 1.0;
  }

  /**
   `glm_rotate2d_to` with column 2 of `dest` taken from column 2 of `m`: the
   corrected form of `RotateTo`, computing `RotatedIntended`.
   */
  method RotateToKeepingTranslation(m: array2<real>, c: real, s: real, dest: array2<real>)
    requires IsMat3(m) && IsMat3(dest) && dest != m
    modifies dest
    ensures Value(dest) == RotatedIntended(Value(m), c, s)
    ensures Value(m) == old(Value(m))
  {
    CombineInto(m, 0, c, 1, s, dest, 0);
    CombineInto(m, 0, -s, 1, c, dest, 1);

    dest[2, 0] := m[2, 0];
    dest[2, 1] := m[2, 1];
    dest[2, 2] := m[2, 2];
  }

  /**
   The in-place rotation computed from a copy of `m` taken before any write:
   the corrected form of `Rotate`, computing `RotatedIntended`.
   */
  method RotateStaged(m: array2<real>, c: real, s: real)
    requires IsMat3(m)
    modifies m
    ensures Value(m) == RotatedIntended(old(Value(m)), c, s)
  {
    var t := new real[3, 3];
    Copy(m, t);
    CombineInto(t, 0, c, 1, s, m, 0);
    CombineInto(t, 0, -s, 1, c, m, 1);
  }

  // ---------------------------------------------------------------------
  // Arithmetic over one entry or one 2x2 block

  /**
   The 2x2 determinant after the in-place update: `(a0, b0)` is the rotated
   column 0 and `(a1, b1)` the column 1 computed from it.
   */
  lemma ShearDet(a0: real, b0: real, a1: real, b1: real,
                 x0: real, y0: real, x1: real, y1: real, c: real, s: real)
    requires a0 == x0 * c + x1 * s && b0 == y0 * c + y1 * s
    requires a1 == a0 * -s + x1 * c && b1 == b0 * -s + y1 * c
    ensures a0 * b1 - a1 * b0 == c * c * (x0 * y1 - x1 * y0)
  {
    assert a0 * b1 - a1 * b0 == c * (a0 * y1 - x1 * b0);
  }

  /** The 2x2 determinant after right-multiplying the block `[[x0, x1], [y0, y1]]` by `[[c, -s], [s, c]]`. */
  lemma RotationDet(a0: real, b0: real, a1: real, b1: real,
                    x0: real, y0: real, x1: real, y1: real, c: real, s: real)
    requires a0 == x0 * c + x1 * s && b0 == y0 * c + y1 * s
    requires a1 == x0 * -s + x1 * c && b1 == y0 * -s + y1 * c
    ensures a0 * b1 - a1 * b0 == (c * c + s * s) * (x0 * y1 - x1 * y0)
  {
  }

  /** Column 2 after translating by `a` and then by `b`, against translating by `a + b` once. */
  lemma ComposeColumns(m: Mat3, a: Vec2, b: Vec2)
    ensures Lin(m.col0, b.x, m.col1, b.y).Plus(Lin(m.col0, a.x, m.col1, a.y).Plus(m.col2))
         == Lin(m.col0, a.x + b.x, m.col1, a.y + b.y).Plus(m.col2)
  {
    ComposeEntry(m.col0.x, m.col1.x, m.col2.x, a.x, a.y, b.x, b.y);
    ComposeEntry(m.col0.y, m.col1.y, m.col2.y, a.x, a.y, b.x, b.y);
    ComposeEntry(m.col0.z, m.col1.z, m.col2.z, a.x, a.y, b.x, b.y);
  }

  /** The basis determinant after the intended rotation, with the rotated columns written out. */
  lemma RotationDetColumns(m: Mat3, c: real, s: real)
    ensures Det2(Mat3(Lin(m.col0, c, m.col1, s), Lin(m.col0, -s, m.col1, c), m.col2)) == (c * c + s * s) * Det2(m)
  {
    var p, q := Lin(m.col0, c, m.col1, s), Lin(m.col0, -s, m.col1, c);
    RotationDet(p.x, p.y, q.x, q.y, m.col0.x, m.col0.y, m.col1.x, m.col1.y, c, s);
  }

  /** Column 0 of the pair `(u, w)` rotated by `(c, s)` and then by `(c, -s)`. */
  lemma UnrotateColumn0(u: Vec3, w: Vec3, c: real, s: real)
    requires c * c + s * s == 1.0
    ensures Lin(Lin(u, c, w, s), c, Lin(u, -s, w, c), -s) == u
  {
    var p, q := Lin(u, c, w, s), Lin(u, -s, w, c);
    UnrotateEntry0(u.x, w.x, p.x, q.x, c, s);
    UnrotateEntry0(u.y, w.y, p.y, q.y, c, s);
    UnrotateEntry0(u.z, w.z, p.z, q.z, c, s);
  }

  /**
   Column 1 of the pair `(u, w)` rotated by `(c, s)` and then by `(c, -s)`.
   The weight `- -s` is the `-s'` of `RotatedIntended` with `s' == -s`,
   written as that function unfolds.
   */
  lemma UnrotateColumn1(u: Vec3, w: Vec3, c: real, s: real)
    requires c * c + s * s == 1.0
    ensures Lin(Lin(u, c, w, s), - -s, Lin(u, -s, w, c), c) == w
  {
    var p, q := Lin(u, c, w, s), Lin(u, -s, w, c);
    UnrotateEntry1(u.x, w.x, p.x, q.x, c, s);
    UnrotateEntry1(u.y, w.y, p.y, q.y, c, s);
    UnrotateEntry1(u.z, w.z, p.z, q.z, c, s);
  }

  /** One entry of column 0 after the rotation by `(c, s)` followed by `(c, -s)`. */
  lemma UnrotateEntry0(x: real, y: real, p: real, q: real, c: real, s: real)
    requires c * c + s * s == 1.0
    requires p == x * c + y * s && q == x * -s + y * c
    ensures p * c + q * -s == x
  {
  }

  /** One entry of column 1 after the rotation by `(c, s)` followed by `(c, -s)`; `- -s` as in `UnrotateColumn1`. */
  lemma UnrotateEntry1(x: real, y: real, p: real, q: real, c: real, s: real)
    requires c * c + s * s == 1.0
    requires p == x * c + y * s && q == x * -s + y * c
    ensures p * - -s + q * c == y
  {
  }

  /** One entry of column 1 after the in-place update, against `InPlaceRotationMatrix`. */
  lemma ShearEntry(x: real, y: real, n: real, c: real, s: real)
    requires n == x * c + y * s
    ensures n * -s + y * c == x * (-c * s) + y * (c - s * s)
  {
  }

  /** One entry of column 2 after translating by `(p, q)` and then by `(p2, q2) == -(p, q)`. */
  lemma CancelEntry(a: real, b: real, c: real, p: real, q: real, p2: real, q2: real)
    requires p2 == -p && q2 == -q
    ensures a * p2 + b * q2 + (a * p + b * q + c) == c
  {
  }

  /** One entry of column 2 after translating by `(p0, q0)` and then by `(p1, q1)`. */
  lemma ComposeEntry(a: real, b: real, c: real, p0: real, q0: real, p1: real, q1: real)
    ensures a * p1 + b * q1 + (a * p0 + b * q0 + c) == a * (p0 + p1) + b * (q0 + q1) + c
  {
  }

  /** A column scaled by `p` and then by `q` is scaled by `p * q`. */
  lemma ScaleEntries(u: Vec3, p: real, q: real)
    ensures u.Scale(p).Scale(q) == u.Scale(p * q)
  {
    var l, r := u.Scale(p).Scale(q), u.Scale(p * q);
    assert l.x == r.x by { MulAssoc(u.x, p, q); }
    assert l.y == r.y by { MulAssoc(u.y, p, q); }
    assert l.z == r.z by { MulAssoc(u.z, p, q); }
  }

  lemma MulAssoc(x: real, p: real, q: real)
    ensures x * p * q == x * (p * q)
  {
  }

  /** A basis whose second column is the negated first has determinant zero. */
  lemma NegatedColumnDet(a0: real, b0: real, a1: real, b1: real)
    requires a1 == -a0 && b1 == -b0
    ensures a0 * b1 - a1 * b0 == 0.0
  {
  }

  lemma NonZeroSquare(s: real)
    requires s != 0.0
    ensures s * s != 0.0
  {
  }
}
