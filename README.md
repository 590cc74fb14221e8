# cglm 2D affine transforms in Dafny

This project models cglm's 2D affine transform header `include/cglm/affine2d.h`.
The header has twelve inline functions. Each one performs a fixed sequence of
element writes into a caller-owned `mat3`:

- translate: `glm_translate2d`, `_to`, `_x`, `_y`, `_make`;
- scale: `glm_scale2d`, `_to`, `_uni`, `_make`;
- rotate: `glm_rotate2d`, `_make`, `_to`.

A `mat3` is column-major: `m[i][j]` is row `j` of column (slot) `i`. Slot 2 is
the translation and slots 0 and 1 are the linear basis.

The model has two layers:

- `mat3.dfy` (module `Mat3`) holds the value types `Vec2`, `Vec3` and `Mat3`,
  the matrix product `Mul`, and the storage of a `mat3` as an
  `array2<real>` with `m[i, j]` standing for `m[i][j]`. `Value(m)` reads a
  buffer as a `Mat3`. It also holds the two `mat3.h` primitives the header
  calls, identity and copy.
- `affine2d.dfy` (module `Affine2D`) has two parts.
  - Value-level functions state what each operation computes: `Translated`,
    `Scaled`, `Rotated`, `RotatedMake`, `RotatedTo`, `TranslationMatrix` and
    `ScaleMatrix`. Lemmas relate them to the matrix product and to each other.
  - One method per C function performs the source's writes, in the source's
    order, on the buffer. Each is proved to leave `Value` equal to the
    value-level function of the old contents.

Entries are `real`, so every equation is exact. The rotations take `c` and `s`
for `cosf(angle)` and `sinf(angle)`.

The rotations are modelled as written:

- `glm_rotate2d` and `glm_rotate2d_make` compute the new column 1 from the
  column 0 they have just overwritten.
- `glm_rotate2d_to` copies column 0 of `m` into column 2 of `dest`.

The documentation comments call these functions rotations. The code does not
compute a rotation, and the model follows the code. `RotatedIntended` is the
rotation the code evidently means. The model proves its properties and
contrasts them with the code as written (see Findings).

## Model

| member | source | states |
|---|---|---|
| Mat3.SetIdentity | include/cglm/affine2d.h:94 | `glm_mat3_identity` as called by the make constructors: every entry of the buffer is overwritten with the identity |
| Mat3.Copy | include/cglm/affine2d.h:53 | `glm_mat3_copy` as called by `glm_translate2d_to`: `dest` holds exactly the entries of `m`, and `m` is unchanged |
| Affine2D.TranslationMatrix | include/cglm/affine2d.h:93-97 | every entry is the identity's except `[2][0] = v[0]` and `[2][1] = v[1]`; the result is the identity exactly when `v = (0, 0)` |
| Affine2D.ScaleMatrix | include/cglm/affine2d.h:131-135 | every entry is the identity's except `[0][0] = v[0]` and `[1][1] = v[1]`; the result is the identity exactly when `v = (1, 1)` |
| Affine2D.Translated | include/cglm/affine2d.h:34-38 | slots 0 and 1 are unchanged; slot 2 is unchanged exactly when `m[0]*v[0] + m[1]*v[1]` is zero |
| Affine2D.Scaled | include/cglm/affine2d.h:146-154 | slot 2 is unchanged; scaling by `(1, 1)` changes nothing |
| Affine2D.RotatedIntended | include/cglm/affine2d.h:218-224 | the rotation the code means: slot 2 is unchanged, and `c = 1, s = 0` changes nothing |
| Affine2D.Rotated | include/cglm/affine2d.h:218-224 | the in-place rotation as written: slot 2 is unchanged, and slot 0 is the intended rotated slot 0 |
| Affine2D.RotatedMake | include/cglm/affine2d.h:191-201 | slot 2 becomes `[0, 0, 1]` and slot 0 is the intended rotated slot 0; on a matrix whose slot 2 is already `[0, 0, 1]` it equals the in-place rotation |
| Affine2D.RotatedTo | include/cglm/affine2d.h:243-253 | slots 0 and 1 are the intended rotation of the original slots, and slot 2 is the original slot 0 |
| Affine2D.TranslatedIsProduct | include/cglm/affine2d.h:34-38 | translating in place equals `m * TranslationMatrix(v)` |
| Affine2D.ScaledIsProduct | include/cglm/affine2d.h:146-154 | scaling in place equals `m * ScaleMatrix(v)` |
| Affine2D.RotatedIntendedIsProduct | include/cglm/affine2d.h:218-224 | the intended rotation equals `m * R(c, s)` with `R` the rotation matrix |
| Affine2D.RotatedIsProduct | include/cglm/affine2d.h:218-224 | the rotation as written equals `m * InPlaceRotationMatrix(c, s)`, whose slot 1 is `(-c*s, c - s*s, 0)` instead of `(-s, c, 0)` |
| Affine2D.TranslateRoundTrip | include/cglm/affine2d.h:34-38 | translating by `v` and then by `-v` restores `m` exactly |
| Affine2D.TranslateCompose | include/cglm/affine2d.h:34-38 | translating by `a` and then by `b` equals translating by `a + b` |
| Affine2D.ScaleCompose | include/cglm/affine2d.h:146-154 | scaling by `a` and then by `b` equals scaling by the component-wise product |
| Affine2D.RotatedDet | include/cglm/affine2d.h:218-224 | the rotation as written multiplies the basis determinant by `c*c`, so it is not area-preserving |
| Affine2D.RotatedIntendedDet | include/cglm/affine2d.h:218-224 | the intended rotation multiplies the basis determinant by `c*c + s*s` |
| Affine2D.RotateQuarterTurn | include/cglm/affine2d.h:218-224 | with `c = 0, s = 1` the code as written sets new slot 0 to old slot 1 and new slot 1 to its negation, and the basis collapses to determinant 0 |
| Affine2D.RotateIntendedQuarterTurn | include/cglm/affine2d.h:218-224 | the intended quarter turn takes slot 1 to slot 0 and the negated slot 0 to slot 1 |
| Affine2D.RotatedIsIntendedIff | include/cglm/affine2d.h:218-224 | on the identity, the rotation as written equals the intended one if and only if `s = 0` |
| Affine2D.RotateIntendedRoundTrip | include/cglm/affine2d.h:218-224 | when `c*c + s*s = 1`, the intended rotation by `(c, -s)` undoes the one by `(c, s)` |
| Affine2D.RotateRoundTripFails | include/cglm/affine2d.h:218-224 | for the code as written, a quarter turn followed by the opposite quarter turn does not restore the identity |
| Affine2D.RotatedMakeOnIdentity | include/cglm/affine2d.h:191-201 | on the identity, `glm_rotate2d_make` as written builds `InPlaceRotationMatrix(c, s)`, and this is the rotation matrix if and only if `s = 0` |
| Affine2D.RotatedMakeIntendedOnIdentity | include/cglm/affine2d.h:176-202 | the corrected make applied to the identity builds exactly the rotation matrix `R(c, s)` that the function's comment promises |
| Affine2D.RotatedToDiffers | include/cglm/affine2d.h:243-253 | on the identity, `glm_rotate2d_to` differs both from `glm_rotate2d` and from the intended rotation |
| Affine2D.ScenarioSetup | include/cglm/affine2d.h:93-97 | translating the identity by (3, 4) and scaling by (2, 2) gives columns (2,0,0), (0,2,0), (3,4,1) |
| Affine2D.QuarterTurnScenario | include/cglm/affine2d.h:218-224 | a quarter turn of that matrix gives slot 1 = (0, -2, 0) as written, against (-2, 0, 0) for the intended rotation |
| Affine2D.Translate | include/cglm/affine2d.h:34-38 | the three writes leave `Translated(old m, v)` in the buffer |
| Affine2D.TranslateTo | include/cglm/affine2d.h:52-55 | `dest` holds `Translated(m, v)`, the in-place result on a copy, and `m` is unchanged |
| Affine2D.TranslateX | include/cglm/affine2d.h:65-69 | the buffer holds `Translated(old m, (x, 0))` |
| Affine2D.TranslateY | include/cglm/affine2d.h:79-83 | the buffer holds `Translated(old m, (0, y))` |
| Affine2D.TranslateMake | include/cglm/affine2d.h:93-97 | the buffer holds `TranslationMatrix(v)`, whatever it held before |
| Affine2D.ScaleTo | include/cglm/affine2d.h:109-121 | `dest` holds `Scaled(m, v)`, with slot 2 copied verbatim, and `m` is unchanged |
| Affine2D.ScaleMake | include/cglm/affine2d.h:131-135 | the buffer holds `ScaleMatrix(v)`, whatever it held before |
| Affine2D.Scale | include/cglm/affine2d.h:146-154 | the buffer holds `Scaled(old m, v)` |
| Affine2D.ScaleUni | include/cglm/affine2d.h:165-173 | the buffer holds `Scaled(old m, (s, s))` |
| Affine2D.CombineInto | include/cglm/affine2d.h:218-220 | three writes `dest[i][j] = src[a][j]*p + src[b][j]*q` replace slot `i` with the combination of the slots as they were on entry, even when `src` is `dest` |
| Affine2D.RotateMake | include/cglm/affine2d.h:185-202 | the buffer holds `RotatedMake(old m, c, s)` |
| Affine2D.Rotate | include/cglm/affine2d.h:212-225 | the buffer holds `Rotated(old m, c, s)`: slot 1 is computed from the overwritten slot 0 |
| Affine2D.RotateTo | include/cglm/affine2d.h:237-254 | `dest` holds `RotatedTo(m, c, s)` and `m` is unchanged |
| Affine2D.RotateStaged | include/cglm/affine2d.h:218-224 | corrected in-place rotation: computing from a copy taken first leaves `RotatedIntended(old m, c, s)` |
| Affine2D.RotateMakeStaged | include/cglm/affine2d.h:191-201 | corrected make: computing from a copy taken first leaves the intended rotation of the old basis, with slot 2 reset to `[0, 0, 1]` |
| Affine2D.RotateToKeepingTranslation | include/cglm/affine2d.h:251-253 | corrected out-of-place rotation: with slot 2 copied from `m[2]`, `dest` holds `RotatedIntended(m, c, s)` |

## Left out

- IEEE single-precision rounding, NaN and infinities: entries are exact `real`s.
  So the round-trip and composition lemmas hold exactly here, but only
  approximately for `float`.
- `sinf` and `cosf` (include/cglm/affine2d.h:188-189, 215-216, 240-241): the
  rotation methods take `c` and `s` as parameters. No relation between them is
  assumed, except where a lemma says so (`c*c + s*s = 1`).
- Aliasing of `dest` with `m` in `glm_translate2d_to`, `glm_scale2d_to` and
  `glm_rotate2d_to`: the model requires `dest != m`. Aliasing within `m` in the
  in-place rotations is modelled.
- `glm_mat3_identity` and `glm_mat3_copy`: `include/cglm/mat3.h` is not part of
  this model. Each one is a small method with the behaviour the header relies
  on.
- The `CGLM_INLINE` macro, the include guards and the includes: they have no
  behaviour.
- The "axis will be normalized" remark in the comment of `glm_rotate2d_make`
  (include/cglm/affine2d.h:178): the function has no axis parameter.
- The three-write groups of the rotations: each group goes through the shared
  method `CombineInto`. The writes and reads are the source's, in the source's
  order.

## Findings

| source | as written | input that shows it | evidently intended | confidence | as-written member | corrected member |
|---|---|---|---|---|---|---|
| include/cglm/affine2d.h:218-224 | `m[1][j] = m[0][j] * -s + m[1][j] * c` reads the `m[0][j]` written three lines above | `m` = identity, `c = 0`, `s = 1`: slot 1 becomes (0, -1, 0) instead of (-1, 0, 0), the determinant drops to 0, and the opposite quarter turn does not restore `m` | compute slot 1 from the original slot 0, giving `m * R(c, s)` | not executed | Affine2D.RotateRoundTripFails | Affine2D.RotateStaged |
| include/cglm/affine2d.h:191-197 | `glm_rotate2d_make` makes the same read of the `m[0][j]` it has just written | `m` = identity, `s = 1`, `c = 0`: slot 1 becomes (0, -1, 0), so the result is not the rotation matrix the comment at line 176 promises | compute slot 1 from the original slot 0, so that the identity gives `R(c, s)` | not executed | Affine2D.RotatedMakeOnIdentity | Affine2D.RotateMakeStaged |
| include/cglm/affine2d.h:251-253 | `dest[2][j] = m[0][j]` copies slot 0 into the translation slot | `m` = identity, any angle: `dest[2]` = (1, 0, 0) instead of (0, 0, 1) | `dest[2][j] = m[2][j]` | not executed | Affine2D.RotatedToDiffers | Affine2D.RotateToKeepingTranslation |
